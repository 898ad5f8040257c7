/** Board files: reading rows, also out of an abandoned conflict, writing them back, and the driver's decision to
    write the merged board or refuse. */
module MergeFile {
  import opened Prelude
  import opened BoardRows
  import opened IdSpace
  import opened MergeSpec
  import MergeRows
  import MergeIds

  /** The JSON library as the driver uses it, and what `strip` takes for white space. */
  datatype LineCodec = LineCodec(decode: string -> Option<Row>, encode: Row -> string, space: char -> bool)

  const OPEN := "<<<<<<<"
  const MIDDLE := "======="
  const CLOSE := ">>>>>>>"

  // ---------------------------------------------------------------- lines

  function Split(text: string): (lines: seq<string>)
    ensures 1 <= |lines| <= |text| + 1
  {
    if text == "" then [""] else
      var rest := Split(text[1..]);
      if text[0] == '\n' then [""] + rest else [[text[0]] + rest[0]] + rest[1..]
  }

  function StripLeft(k: LineCodec, s: string): string {
    if s != "" && k.space(s[0]) then StripLeft(k, s[1..]) else s
  }

  function StripRight(k: LineCodec, s: string): string {
    if s != "" && k.space(s[|s| - 1]) then StripRight(k, s[..|s| - 1]) else s
  }

  function Strip(k: LineCodec, s: string): string {
    StripRight(k, StripLeft(k, s))
  }

  /** What is cut off on both sides is white space, and what is left neither begins nor ends with any. */
  lemma {:induction false} StripExactly(k: LineCodec, s: string) returns (i: nat, j: nat)
    ensures i <= j <= |s| && Strip(k, s) == s[i..j]
    ensures forall n | 0 <= n < i || j <= n < |s| :: k.space(s[n])
    ensures i < j ==> !k.space(s[i]) && !k.space(s[j - 1])
  {
    i := LeftExactly(k, s);
    j := RightExactly(k, s[i..]);
    forall n | i + j <= n < |s| ensures k.space(s[n]) {
      assert s[i..][n - i] == s[n];
    }
    if 0 < j {
      assert s[i..][j - 1] == s[i + j - 1] && s[i..][0] == s[i];
    }
    assert s[i..][..j] == s[i..i + j];
    j := i + j;
  }

  lemma {:induction false} LeftExactly(k: LineCodec, s: string) returns (i: nat)
    ensures i <= |s| && StripLeft(k, s) == s[i..]
    ensures (forall n | 0 <= n < i :: k.space(s[n])) && (i < |s| ==> !k.space(s[i]))
  {
    i := 0;
    if s != "" && k.space(s[0]) {
      i := LeftExactly(k, s[1..]);
      forall n | 0 < n < i + 1 ensures k.space(s[n]) {
        assert s[1..][n - 1] == s[n];
      }
      assert s[1..][i..] == s[i + 1..] && (i < |s| - 1 ==> s[1..][i] == s[i + 1]);
      i := i + 1;
    }
  }

  lemma {:induction false} RightExactly(k: LineCodec, s: string) returns (j: nat)
    ensures j <= |s| && StripRight(k, s) == s[..j]
    ensures (forall n | j <= n < |s| :: k.space(s[n])) && (j > 0 ==> !k.space(s[j - 1]))
  {
    j := |s|;
    if s != "" && k.space(s[|s| - 1]) {
      j := RightExactly(k, s[..|s| - 1]);
      assert s[..|s| - 1][..j] == s[..j];
    }
  }

  /** Joined by newlines the lines are the text again, and none has a newline in it. */
  lemma {:induction false} SplitExactly(text: string)
    ensures Joined(Split(text)) == text && forall line | line in Split(text) :: '\n' !in line
  {
    if text != "" {
      SplitExactly(text[1..]);
      var rest := Split(text[1..]);
      assert text == [text[0]] + text[1..];
      if text[0] == '\n' {
        assert ([""] + rest)[1..] == rest;
      } else {
        assert ([[text[0]] + rest[0]] + rest[1..])[1..] == rest[1..];
        assert rest[0] in rest;
      }
    }
  }

  function Joined(lines: seq<string>): string
    requires lines != []
  {
    if |lines| == 1 then lines[0] else lines[0] + "\n" + Joined(lines[1..])
  }

  function Lines(k: LineCodec, text: string): (lines: seq<string>)
    ensures |lines| <= |text| + 1
  {
    MapSeq(s => Strip(k, s), Split(text))
  }

  // ---------------------------------------------------------------- what each line is

  predicate Opens(line: string) {
    OPEN <= line
  }

  predicate Closes(line: string) {
    CLOSE <= line
  }

  /** No divider or section boundary since the last opening marker. */
  predicate HeadAt(lines: seq<string>, i: nat)
    requires i <= |lines|
  {
    i > 0 && (Opens(lines[i - 1]) || (!Closes(lines[i - 1]) && !(MIDDLE <= lines[i - 1]) && HeadAt(lines, i - 1)))
  }

  /** The last section boundary before `i` opens a section. */
  predicate InSection(lines: seq<string>, i: nat)
    requires i <= |lines|
  {
    i > 0 && (Opens(lines[i - 1]) || (!Closes(lines[i - 1]) && InSection(lines, i - 1)))
  }

  /** The next section boundary from `i` on closes a section. */
  predicate ClosesNext(lines: seq<string>, i: nat)
    requires i <= |lines|
    decreases |lines| - i
  {
    i < |lines| && (Closes(lines[i]) || (!Opens(lines[i]) && ClosesNext(lines, i + 1)))
  }

  predicate IsData(lines: seq<string>, i: nat)
    requires i < |lines|
  {
    && lines[i] != "" && !Opens(lines[i]) && !Closes(lines[i])
    && !(MIDDLE <= lines[i] && HeadAt(lines, i))
  }

  predicate Readable(k: LineCodec, lines: seq<string>, i: nat)
    requires i < |lines|
  {
    IsData(lines, i) && k.decode(lines[i]).Some?
  }

  /** A readable line in a section that is never closed, or is opened over. */
  predicate Abandoned(lines: seq<string>, i: nat)
    requires i < |lines|
  {
    InSection(lines, i) && !ClosesNext(lines, i + 1)
  }

  /** The rows of lines `from` to `to`, each readable line one row. */
  function RowsIn(k: LineCodec, lines: seq<string>, from: nat, to: nat): seq<Row>
    requires from <= to <= |lines|
  {
    if from == to then []
    else if Readable(k, lines, to - 1) then RowsIn(k, lines, from, to - 1) + [k.decode(lines[to - 1]).value]
    else RowsIn(k, lines, from, to - 1)
  }

  /** The same for the first `n` lines, without the abandoned ones. */
  function KeptRows(k: LineCodec, lines: seq<string>, n: nat): (rows: seq<Row>)
    requires n <= |lines|
    ensures |rows| <= n
  {
    if n == 0 then []
    else if Readable(k, lines, n - 1) && !Abandoned(lines, n - 1)
        then KeptRows(k, lines, n - 1) + [k.decode(lines[n - 1]).value]
    else KeptRows(k, lines, n - 1)
  }

  /** Numbers of the data lines that are not JSON, abandoned or not. */
  function BadLines(k: LineCodec, lines: seq<string>, n: nat): seq<nat>
    requires n <= |lines|
  {
    if n == 0 then []
    else if IsData(lines, n - 1) && k.decode(lines[n - 1]).None? then BadLines(k, lines, n - 1) + [n]
    else BadLines(k, lines, n - 1)
  }

  // ---------------------------------------------------------------- sections

  /** Line `a` opens a section that reaches `b`. */
  ghost predicate SectionFrom(lines: seq<string>, a: nat, b: nat) {
    a < b <= |lines| && Opens(lines[a]) && forall j | a < j < b :: !Opens(lines[j]) && !Closes(lines[j])
  }

  lemma {:induction false} InsideSection(lines: seq<string>, a: nat, b: nat, m: nat)
    requires SectionFrom(lines, a, b) && a < m <= b
    ensures InSection(lines, m) && ClosesNext(lines, m) == ClosesNext(lines, b)
    decreases b - a, m - a
  {
    InsideBefore(lines, a, b, m);
    InsideAfter(lines, a, b, m);
  }

  lemma {:induction false} InsideBefore(lines: seq<string>, a: nat, b: nat, m: nat)
    requires SectionFrom(lines, a, b) && a < m <= b
    ensures InSection(lines, m)
  {
    if m > a + 1 {
      InsideBefore(lines, a, b, m - 1);
    }
  }

  lemma {:induction false} InsideAfter(lines: seq<string>, a: nat, b: nat, m: nat)
    requires SectionFrom(lines, a, b) && a < m <= b
    ensures ClosesNext(lines, m) == ClosesNext(lines, b)
    decreases b - m
  {
    if m < b {
      InsideAfter(lines, a, b, m + 1);
    }
  }

  /** A section's rows are kept when it is closed and dropped when it is not. */
  lemma {:induction false} SectionOutcome(k: LineCodec, lines: seq<string>, a: nat, b: nat, m: nat)
    requires SectionFrom(lines, a, b) && a < m <= b
    ensures KeptRows(k, lines, m) == KeptRows(k, lines, a) + if ClosesNext(lines, b) then RowsIn(k, lines, a, m) else []
  {
    if m == a + 1 {
      assert RowsIn(k, lines, a, a + 1) == [];
      assert KeptRows(k, lines, a) + [] == KeptRows(k, lines, a);
    } else {
      SectionOutcome(k, lines, a, b, m - 1);
      InsideSection(lines, a, b, m - 1);
      InsideSection(lines, a, b, m);
      if ClosesNext(lines, b) && Readable(k, lines, m - 1) {
        AppendAssociates(KeptRows(k, lines, a), RowsIn(k, lines, a, m - 1), [k.decode(lines[m - 1]).value]);
      }
    }
  }

  // ---------------------------------------------------------------- the parser

  datatype Mode = Plain | Head | Branch

  /** The parser before line `i`: rows up to `start` are settled, an open section runs from there. */
  ghost predicate ReadTo(k: LineCodec, lines: seq<string>, i: nat, start: nat, mode: Mode, rows: seq<Row>,
          head: seq<Row>, branch: seq<Row>) {
    && start <= i <= |lines| && rows == KeptRows(k, lines, start)
    && (mode != Plain <==> InSection(lines, i)) && (mode == Head <==> HeadAt(lines, i))
    && (mode != Branch ==> branch == [])
    && (mode == Plain ==> start == i && head == [])
    && (mode != Plain ==> SectionFrom(lines, start, i) && head + branch == RowsIn(k, lines, start, i))
  }

  /** Leaving a section: its rows count if this boundary closes it. */
  lemma {:induction false} LeaveSection(k: LineCodec, lines: seq<string>, i: nat, start: nat, mode: Mode,
          rows: seq<Row>, head: seq<Row>, branch: seq<Row>)
    requires ReadTo(k, lines, i, start, mode, rows, head, branch)
    requires i == |lines| || Opens(lines[i]) || Closes(lines[i])
    ensures KeptRows(k, lines, i) == if ClosesNext(lines, i) then rows + head + branch else rows
  {
    if mode == Plain {
      assert rows + [] + [] == rows;
    } else {
      SectionOutcome(k, lines, start, i, i);
      AppendAssociates(rows, head, branch);
      assert rows + [] == rows;
    }
  }

  lemma {:induction false} EnterSection(k: LineCodec, lines: seq<string>, i: nat)
    requires i < |lines| && Opens(lines[i])
    ensures ReadTo(k, lines, i + 1, i, Head, KeptRows(k, lines, i), [], [])
  {
    assert RowsIn(k, lines, i, i + 1) == [];
  }

  lemma {:induction false} ReadRow(k: LineCodec, lines: seq<string>, i: nat, start: nat, mode: Mode, rows: seq<Row>,
          head: seq<Row>, branch: seq<Row>)
    requires ReadTo(k, lines, i, start, mode, rows, head, branch)
    requires i < |lines| && Readable(k, lines, i)
    ensures var row := [k.decode(lines[i]).value];
      match mode
      case Plain => ReadTo(k, lines, i + 1, i + 1, mode, rows + row, head, branch)
      case Head => ReadTo(k, lines, i + 1, start, mode, rows, head + row, branch)
      case Branch => ReadTo(k, lines, i + 1, start, mode, rows, head, branch + row)
  {
    var row := [k.decode(lines[i]).value];
    if mode == Head {
      assert head + [] == head && head + row + [] == head + row;
    } else if mode == Branch {
      AppendAssociates(head, branch, row);
    }
  }

  lemma {:induction false} SkipLine(k: LineCodec, lines: seq<string>, i: nat, start: nat, mode: Mode, rows: seq<Row>,
          head: seq<Row>, branch: seq<Row>)
    requires ReadTo(k, lines, i, start, mode, rows, head, branch)
    requires i < |lines| && !Opens(lines[i]) && !Closes(lines[i]) && !Readable(k, lines, i)
    ensures ReadTo(k, lines, i + 1, if mode == Plain then i + 1 else start,
                   if mode == Head && MIDDLE <= lines[i] then Branch else mode, rows, head, branch)
  {
  }

  lemma {:induction false} CloseSection(k: LineCodec, lines: seq<string>, i: nat, start: nat, mode: Mode,
          rows: seq<Row>, head: seq<Row>, branch: seq<Row>)
    requires ReadTo(k, lines, i, start, mode, rows, head, branch)
    requires i < |lines| && Closes(lines[i])
    ensures ReadTo(k, lines, i + 1, i + 1, Plain, rows + head + branch, [], [])
  {
    LeaveSection(k, lines, i, start, mode, rows, head, branch);
    NotBoth(lines[i]);
  }

  method ParseLines(k: LineCodec, lines: seq<string>) returns (rows: seq<Row>, errors: seq<nat>)
    ensures rows == KeptRows(k, lines, |lines|)
    ensures errors == BadLines(k, lines, |lines|)
  {
    rows, errors := [], [];
    var mode, head, branch := Plain, [], [];
    ghost var start := 0;
    for i := 0 to |lines|
      invariant ReadTo(k, lines, i, start, mode, rows, head, branch)
      invariant errors == BadLines(k, lines, i)
    {
      var line := lines[i];
      NotBoth(line);
      if Opens(line) {
        LeaveSection(k, lines, i, start, mode, rows, head, branch);
        EnterSection(k, lines, i);
        mode, head, branch, start := Head, [], [], i;
      } else if MIDDLE <= line && mode == Head {
        SkipLine(k, lines, i, start, mode, rows, head, branch);
        mode := Branch;
      } else if Closes(line) {
        CloseSection(k, lines, i, start, mode, rows, head, branch);
        rows := rows + head;
        rows := rows + branch;
        mode, head, branch, start := Plain, [], [], i + 1;
      } else if line == "" {
        SkipLine(k, lines, i, start, mode, rows, head, branch);
        start := if mode == Plain then i + 1 else start;
      } else {
        var row := k.decode(line);
        if row.None? {
          SkipLine(k, lines, i, start, mode, rows, head, branch);
          errors := errors + [i + 1];
          start := if mode == Plain then i + 1 else start;
        } else {
          ReadRow(k, lines, i, start, mode, rows, head, branch);
          if mode == Plain {
            rows := rows + [row.value];
            start := i + 1;
          } else if mode == Head {
            head := head + [row.value];
          } else {
            branch := branch + [row.value];
          }
        }
      }
    }
    LeaveSection(k, lines, |lines|, start, mode, rows, head, branch);
  }

  lemma {:induction false} NotBoth(line: string)
    ensures !(Opens(line) && Closes(line)) && !(MIDDLE <= line && (Opens(line) || Closes(line)))
  {
    assert OPEN[0] == '<' && CLOSE[0] == '>' && MIDDLE[0] == '=';
    if line != "" {
      assert Opens(line) ==> line[0] == OPEN[0];
      assert Closes(line) ==> line[0] == CLOSE[0];
      assert MIDDLE <= line ==> line[0] == MIDDLE[0];
    }
  }

  function RowsOfText(k: LineCodec, text: string): seq<Row> {
    KeptRows(k, Lines(k, text), |Lines(k, text)|)
  }

  function ErrorsOfText(k: LineCodec, text: string): seq<nat> {
    BadLines(k, Lines(k, text), |Lines(k, text)|)
  }

  // ---------------------------------------------------------------- what parsing keeps

  /** Parsing keeps every readable row, in text order, exactly when no readable line is abandoned. */
  lemma {:induction false} NothingDropped(k: LineCodec, lines: seq<string>, n: nat)
    requires n <= |lines|
    ensures |KeptRows(k, lines, n)| <= |RowsIn(k, lines, 0, n)|
    ensures KeptRows(k, lines, n) == RowsIn(k, lines, 0, n)
       <==> forall i | 0 <= i < n :: Readable(k, lines, i) ==> !Abandoned(lines, i)
  {
    if n > 0 {
      NothingDropped(k, lines, n - 1);
      if Readable(k, lines, n - 1) && !Abandoned(lines, n - 1) {
        SameSnoc(KeptRows(k, lines, n - 1), RowsIn(k, lines, 0, n - 1), k.decode(lines[n - 1]).value);
      }
    }
  }

  lemma {:induction false} SameSnoc(a: seq<Row>, b: seq<Row>, x: Row)
    ensures a + [x] == b + [x] <==> a == b
  {
    assert (a + [x])[..|a|] == a && (b + [x])[..|b|] == b;
  }

  /** Every section is closed before another is opened. */
  ghost predicate Balanced(lines: seq<string>) {
    forall i | 0 <= i < |lines| :: Opens(lines[i]) ==> ClosesNext(lines, i + 1)
  }

  lemma {:induction false} LastOpener(lines: seq<string>, i: nat) returns (a: nat)
    requires i <= |lines| && InSection(lines, i)
    ensures SectionFrom(lines, a, i)
  {
    if Opens(lines[i - 1]) {
      a := i - 1;
    } else {
      a := LastOpener(lines, i - 1);
    }
  }

  lemma {:induction false} BalancedKeepsAll(k: LineCodec, lines: seq<string>)
    requires Balanced(lines)
    ensures KeptRows(k, lines, |lines|) == RowsIn(k, lines, 0, |lines|)
  {
    forall i | 0 <= i < |lines| && Readable(k, lines, i) ensures !Abandoned(lines, i) {
      if InSection(lines, i) {
        var a := LastOpener(lines, i);
        InsideAfter(lines, a, i, a + 1);
      }
    }
    NothingDropped(k, lines, |lines|);
  }

  function DataLines(lines: seq<string>, n: nat): nat
    requires n <= |lines|
  {
    if n == 0 then 0 else DataLines(lines, n - 1) + if IsData(lines, n - 1) then 1 else 0
  }

  /** Each data line is one row or one error. */
  lemma {:induction false} RowOrError(k: LineCodec, lines: seq<string>, n: nat)
    requires n <= |lines|
    ensures |RowsIn(k, lines, 0, n)| + |BadLines(k, lines, n)| == DataLines(lines, n)
  {
    if n > 0 {
      RowOrError(k, lines, n - 1);
    }
  }

  predicate Marker(line: string) {
    "<<<<<<<" <= line || "=======" <= line || ">>>>>>>" <= line
  }

  /** Line `a` opens a section, and no marker stands between it and line `i`. */
  ghost predicate HeadFrom(lines: seq<string>, a: nat, i: nat) {
    a < i <= |lines| && "<<<<<<<" <= lines[a] && forall j | a < j < i :: !Marker(lines[j])
  }

  ghost predicate HasHead(lines: seq<string>, i: nat) {
    exists a: nat :: HeadFrom(lines, a, i)
  }

  lemma {:induction false} HeadExactly(lines: seq<string>, i: nat)
    requires i <= |lines|
    ensures HeadAt(lines, i) <==> HasHead(lines, i)
  {
    if i > 0 {
      HeadExactly(lines, i - 1);
      if !Marker(lines[i - 1]) && HasHead(lines, i - 1) {
        var a: nat :| HeadFrom(lines, a, i - 1);
        assert HeadFrom(lines, a, i);
      }
      if a: nat :| HeadFrom(lines, a, i) {
        assert a < i - 1 ==> HeadFrom(lines, a, i - 1);
      }
      assert Opens(lines[i - 1]) ==> HeadFrom(lines, i - 1, i);
    }
  }

  /** Which lines are data: all but blank ones, markers that open or close a section, and a divider in the first half of
      one. A divider anywhere else is data, and so an error. */
  lemma {:induction false} DataExactly(lines: seq<string>, i: nat)
    requires i < |lines|
    ensures IsData(lines, i) <==>
      && lines[i] != "" && !("<<<<<<<" <= lines[i]) && !(">>>>>>>" <= lines[i])
      && ("=======" <= lines[i] ==> !HasHead(lines, i))
  {
    HeadExactly(lines, i);
    hide HeadAt, HasHead;
  }

  /** Line `b` closes a section, and no boundary stands between line `i` and it. */
  ghost predicate ClosedBy(lines: seq<string>, i: nat, b: nat) {
    i <= b < |lines| && ">>>>>>>" <= lines[b]
    && forall j | i <= j < b :: !("<<<<<<<" <= lines[j]) && !(">>>>>>>" <= lines[j])
  }

  ghost predicate IsClosed(lines: seq<string>, i: nat) {
    exists b: nat :: ClosedBy(lines, i, b)
  }

  lemma {:induction false} ClosesExactly(lines: seq<string>, i: nat)
    requires i <= |lines|
    ensures ClosesNext(lines, i) <==> IsClosed(lines, i)
    decreases |lines| - i
  {
    if i < |lines| {
      ClosesExactly(lines, i + 1);
      NotBoth(lines[i]);
      if IsClosed(lines, i + 1) && !Opens(lines[i]) && !Closes(lines[i]) {
        var b: nat :| ClosedBy(lines, i + 1, b);
        assert ClosedBy(lines, i, b);
      }
      if b: nat :| ClosedBy(lines, i, b) {
        assert b > i ==> ClosedBy(lines, i + 1, b);
      }
      assert Closes(lines[i]) ==> ClosedBy(lines, i, i);
    }
  }

  lemma {:induction false} InExactly(lines: seq<string>, i: nat)
    requires i <= |lines|
    ensures InSection(lines, i) <==> exists a: nat :: SectionFrom(lines, a, i)
  {
    if InSection(lines, i) {
      var a := LastOpener(lines, i);
    }
    if a: nat :| SectionFrom(lines, a, i) {
      InsideBefore(lines, a, i, i);
    }
  }

  /** Which lines are abandoned: those behind an opening marker whose section is not closed before the next opens. */
  lemma {:induction false} AbandonedExactly(lines: seq<string>, i: nat)
    requires i < |lines|
    ensures Abandoned(lines, i) <==> (exists a: nat :: SectionFrom(lines, a, i)) && !IsClosed(lines, i + 1)
  {
    InExactly(lines, i);
    ClosesExactly(lines, i + 1);
    hide InSection, ClosesNext, SectionFrom, IsClosed;
  }

  /** The errors are the numbers, from one, of the data lines that are not JSON, in ascending order. */
  lemma {:induction false} ErrorsExactly(k: LineCodec, lines: seq<string>, n: nat)
    requires n <= |lines|
    ensures forall m: nat :: m in BadLines(k, lines, n) <==>
      1 <= m <= n && IsData(lines, m - 1) && k.decode(lines[m - 1]).None?
    ensures forall i, j | 0 <= i < j < |BadLines(k, lines, n)| :: BadLines(k, lines, n)[i] < BadLines(k, lines, n)[j]
  {
    if n > 0 {
      ErrorsExactly(k, lines, n - 1);
      hide IsData;
      var before := BadLines(k, lines, n - 1);
      forall i | 0 <= i < |before| ensures before[i] < n {
        assert before[i] in before;
      }
    }
  }

  /** A section opened over loses its rows without an error: only the second section's row is read. */
  lemma {:induction false} OpenedOver(k: LineCodec, x: string, y: string, p: Row, q: Row)
    requires k.decode(x) == Some(p) && k.decode(y) == Some(q) && x != "" && y != ""
    requires !Opens(x) && !Closes(x) && !(MIDDLE <= x) && !Opens(y) && !Closes(y) && !(MIDDLE <= y)
    ensures var lines := [OPEN, x, OPEN, y, CLOSE];
      KeptRows(k, lines, |lines|) == [q] && BadLines(k, lines, |lines|) == []
  {
    var lines := [OPEN, x, OPEN, y, CLOSE];
    assert lines[0] == OPEN && lines[1] == x && lines[2] == OPEN && lines[3] == y && lines[4] == CLOSE;
    assert OPEN[0] == '<' && CLOSE[0] == '>';
    assert !Closes(OPEN) && Opens(OPEN) && Closes(CLOSE);
    assert Abandoned(lines, 1) && ClosesNext(lines, 4);
    assert KeptRows(k, lines, 2) == KeptRows(k, lines, 1) == KeptRows(k, lines, 0) == [];
    assert KeptRows(k, lines, 4) == KeptRows(k, lines, 3) + [q] == [] + [q];
    assert BadLines(k, lines, 2) == BadLines(k, lines, 1) == [];
    assert BadLines(k, lines, 4) == BadLines(k, lines, 3) == BadLines(k, lines, 2);
  }

  // ---------------------------------------------------------------- the printer

  function Print(k: LineCodec, rows: seq<Row>): string {
    if rows == [] then "" else k.encode(rows[0]) + "\n" + Print(k, rows[1..])
  }

  /** The file has each row's text on a line of its own, in order, and ends with a newline. */
  lemma {:induction false} PrintExactly(k: LineCodec, rows: seq<Row>)
    requires forall row | row in rows :: '\n' !in k.encode(row)
    ensures Split(Print(k, rows)) == MapSeq(k.encode, rows) + [""]
  {
    if rows == [] {
      assert MapSeq(k.encode, rows) == [];
    } else {
      assert rows[0] in rows;
      SplitFirst(k.encode(rows[0]), Print(k, rows[1..]));
      PrintExactly(k, rows[1..]);
      assert MapSeq(k.encode, rows) == [k.encode(rows[0])] + MapSeq(k.encode, rows[1..]);
    }
  }

  /** A row is written on one line that starts and ends with ink, is no marker, and reads back as itself. */
  ghost predicate OneLine(k: LineCodec, row: Row) {
    var s := k.encode(row);
    && s != "" && '\n' !in s && !k.space(s[0]) && !k.space(s[|s| - 1])
    && !Opens(s) && !Closes(s) && !(MIDDLE <= s) && k.decode(s) == Some(row)
  }

  lemma {:induction false} SplitFirst(s: string, rest: string)
    requires '\n' !in s
    ensures Split(s + "\n" + rest) == [s] + Split(rest)
  {
    var text := s + "\n" + rest;
    if s == "" {
      assert text[1..] == rest;
    } else {
      assert text[1..] == s[1..] + "\n" + rest;
      SplitFirst(s[1..], rest);
      assert [s[0]] + s[1..] == s;
    }
  }

  lemma {:induction false} PrintedLines(k: LineCodec, rows: seq<Row>)
    requires forall row | row in rows :: OneLine(k, row)
    ensures Lines(k, Print(k, rows)) == MapSeq(k.encode, rows) + [""]
  {
    var text := Print(k, rows);
    if rows == [] {
      assert Split("") == [""] && MapSeq(k.encode, rows) == [];
      assert Lines(k, "") == [""];
    } else {
      var s, rest := k.encode(rows[0]), Print(k, rows[1..]);
      assert OneLine(k, rows[0]);
      SplitFirst(s, rest);
      PrintedLines(k, rows[1..]);
      MapAppend(s => Strip(k, s), [s], Split(rest));
      assert Strip(k, s) == s;
      assert Lines(k, text) == [s] + Lines(k, rest);
      assert MapSeq(k.encode, rows) == [s] + MapSeq(k.encode, rows[1..]);
    }
  }

  lemma {:induction false} NoSections(lines: seq<string>, i: nat)
    requires i <= |lines| && forall j | 0 <= j < |lines| :: !Opens(lines[j])
    ensures !InSection(lines, i)
  {
    if i > 0 {
      NoSections(lines, i - 1);
    }
  }

  lemma {:induction false} PlainRows(k: LineCodec, lines: seq<string>, rows: seq<Row>, n: nat)
    requires n <= |rows| && |lines| == |rows| + 1
    requires forall row | row in rows :: OneLine(k, row)
    requires forall j | 0 <= j < |rows| :: lines[j] == k.encode(rows[j])
    requires forall j | 0 <= j < |lines| :: !Opens(lines[j])
    ensures KeptRows(k, lines, n) == rows[..n] && BadLines(k, lines, n) == []
  {
    if n > 0 {
      PlainRows(k, lines, rows, n - 1);
      NoSections(lines, n - 1);
      assert rows[n - 1] in rows;
      LastSplit(rows[..n]);
      assert rows[..n][..n - 1] == rows[..n - 1];
    }
  }

  /** What is written reads back as the same rows, without an error. */
  lemma {:induction false} PrintParse(k: LineCodec, rows: seq<Row>)
    requires forall row | row in rows :: OneLine(k, row)
    ensures RowsOfText(k, Print(k, rows)) == rows && ErrorsOfText(k, Print(k, rows)) == []
  {
    var lines := Lines(k, Print(k, rows));
    PrintedLines(k, rows);
    forall j | 0 <= j < |lines| ensures !Opens(lines[j]) && (j < |rows| ==> lines[j] == k.encode(rows[j])) {
      if j < |rows| {
        assert rows[j] in rows;
      }
    }
    PlainRows(k, lines, rows, |rows|);
    assert rows[..|rows|] == rows;
    assert lines[|rows|] == "";
  }

  // ---------------------------------------------------------------- the driver

  class TextFile {
    var text: string

    constructor (content: string)
      ensures text == content
    {
      text := content;
    }
  }

  /** The ids on more than one row. */
  method RepeatedIds(rows: seq<Row>) returns (repeated: set<Id>)
    ensures forall id ::
        id in repeated <==> (exists i, j :: 0 <= i < j < |rows| && RowId(rows[i]) == RowId(rows[j]) == Some(id))
    ensures repeated == {} <==> MergeIds.NoRepeatedIds(rows)
  {
    repeated := {};
    var ids: set<Id> := {};
    for n := 0 to |rows|
      invariant forall id :: id in ids <==> (exists i :: 0 <= i < n && RowId(rows[i]) == Some(id))
      invariant forall id ::
          id in repeated <==> (exists i, j :: 0 <= i < j < n && RowId(rows[i]) == RowId(rows[j]) == Some(id))
    {
      var own := RowId(rows[n]);
      if own.Some? {
        if own.value in ids {
          repeated := repeated + {own.value};
        }
        ids := ids + {own.value};
      }
    }
    if !MergeIds.NoRepeatedIds(rows) {
      ghost var i, j :| 0 <= i < j < |rows| && RowId(rows[i]).Some? && RowId(rows[i]) == RowId(rows[j]);
      assert rows[i].id.value in repeated;
    }
  }

  method Write(k: LineCodec, rows: seq<Row>, file: TextFile)
    modifies file
    ensures file.text == Print(k, rows)
  {
    file.text := "";
    for n := 0 to |rows|
      invariant file.text == Print(k, rows[..n])
    {
      PrintSnoc(k, rows[..n], rows[n]);
      assert rows[..n + 1] == rows[..n] + [rows[n]];
      file.text := file.text + (k.encode(rows[n]) + "\n");
    }
    assert rows[..|rows|] == rows;
  }

  /** `main`: our file becomes the merged board, or stays exactly as it was with a non-zero exit code. It is
      written only when both sides parse and no id is on two rows; a base that does not parse is no obstacle. */
  method Run(c: Codec, k: LineCodec, base: TextFile, ours: TextFile, theirs: TextFile) returns (code: nat)
    requires SaltsSpread(c) && 2 * (|base.text| + |ours.text| + |theirs.text| + 3) <= DERIVED_ID_SPAN
    modifies ours
    ensures var merged := Merged(c, RowsOfText(k, old(base.text)), RowsOfText(k, old(ours.text)),
        RowsOfText(k, old(theirs.text)));
      var sound := ErrorsOfText(k, old(ours.text)) == [] && ErrorsOfText(k, old(theirs.text)) == [];
      if sound && MergeIds.NoRepeatedIds(merged)
      then code == 0 && ours.text == Print(k, merged)
      else code == 1 && ours.text == old(ours.text)
  {
    var baseRows, e1 := ParseLines(k, Lines(k, base.text));
    var ourRows, e2 := ParseLines(k, Lines(k, ours.text));
    var theirRows, e3 := ParseLines(k, Lines(k, theirs.text));
    if e3 != [] || e2 != [] {
      return 1;
    }
    var rows := MergeRows.MergeRows(c, baseRows, ourRows, theirRows);
    var duplicates := RepeatedIds(rows);
    if duplicates != {} {
      return 1;
    }
    Write(k, rows, ours);
    return 0;
  }

  lemma {:induction false} PrintSnoc(k: LineCodec, rows: seq<Row>, row: Row)
    ensures Print(k, rows + [row]) == Print(k, rows) + (k.encode(row) + "\n")
  {
    if rows == [] {
      assert Print(k, []) == "" && [] + [row] == [row] && [row][1..] == [];
    } else {
      PrintSnoc(k, rows[1..], row);
      assert (rows + [row])[1..] == rows[1..] + [row];
    }
  }
}
