/** The intake daemon's incremental reader: complete lines of a board that other processes keep appending to. */
module IntakeTail {
  import opened Prelude

  type Byte = x: int | 0 <= x < 256

  type Bytes = seq<Byte>

  const NEWLINE: Byte := 10

  /** What one poll meets: the size and time a `stat` reports, then the content a later read finds. */
  datatype Look = Look(size: nat, mtime: int, content: Bytes)

  datatype Tail = Tail(offset: nat, carry: Bytes, stat: Option<(nat, int)>)

  const START := Tail(0, [], None)

  /** Bytes up to and including the last newline. */
  function Complete(data: Bytes): (n: nat)
    ensures n <= |data| && (n > 0 ==> data[n - 1] == NEWLINE)
    ensures NEWLINE !in data[n..]
  {
    if data == [] then 0
    else if data[|data| - 1] == NEWLINE then |data|
    else
      var n := Complete(data[..|data| - 1]);
      assert data[n..] == data[..|data| - 1][n..] + [data[|data| - 1]];
      n
  }

  function StartOf(t: Tail, look: Look, backlog: bool): nat {
    if backlog || look.size < t.offset then 0 else t.offset
  }

  function Chunk(look: Look, start: nat): Bytes {
    if start <= |look.content| then look.content[start..] else []
  }

  /** One call of the reader: its new state and the text of complete lines it returns. */
  function Read(t: Tail, look: Look, backlog: bool): (Tail, Bytes) {
    if t.stat == Some((look.size, look.mtime)) then (t, [])
    else
      var start := StartOf(t, look, backlog);
      var chunk := Chunk(look, start);
      var data := t.carry + chunk;
      (Tail(start + |chunk|, data[Complete(data)..], Some((look.size, look.mtime))), data[..Complete(data)])
  }

  /** ONE READ, exactly: nothing happens while size and time are as they were; otherwise everything from where the last
      read stopped, or from the beginning for a backlog or a board that shrank, is taken in behind what was carried, and
      split behind its last newline. */
  lemma {:induction false} ReadExactly(t: Tail, look: Look, backlog: bool)
    ensures var (after, text) := Read(t, look, backlog);
      var start := if backlog || look.size < t.offset then 0 else t.offset;
      if t.stat == Some((look.size, look.mtime)) then after == t && text == []
      else
        && after.stat == Some((look.size, look.mtime))
        && after.offset == (if start <= |look.content| then |look.content| else start)
        && text + after.carry == t.carry + (if start <= |look.content| then look.content[start..] else [])
        && NEWLINE !in after.carry && (text != [] ==> text[|text| - 1] == NEWLINE)
  {
    var data := t.carry + Chunk(look, StartOf(t, look, backlog));
    var n := Complete(data);
    assert data[..n] + data[n..] == data;
    if n > 0 {
      assert data[..n][n - 1] == NEWLINE;
    }
  }

  // ---------------------------------------------------------------- a board that only grows

  /** Everything read so far is the board's beginning: `delivered` in complete lines, the rest carried. */
  ghost predicate InStep(t: Tail, delivered: Bytes, content: Bytes) {
    && t.offset <= |content| && delivered + t.carry == content[..t.offset]
    && NEWLINE !in t.carry && (delivered != [] ==> delivered[|delivered| - 1] == NEWLINE)
    && (t.stat.Some? ==> t.stat.value.0 <= t.offset)
  }

  /** The next look finds everything read before, and the read finds everything the stat counted. */
  ghost predicate GrownSince(t: Tail, before: Bytes, look: Look) {
    before <= look.content && t.offset <= look.size <= |look.content|
  }

  lemma {:induction false} ReadOn(t: Tail, look: Look)
    requires t.stat != Some((look.size, look.mtime)) && t.offset <= look.size <= |look.content|
    ensures var (after, text) := Read(t, look, false);
      && text + after.carry == t.carry + look.content[t.offset..]
      && after.offset == |look.content| && after.stat == Some((look.size, look.mtime))
      && NEWLINE !in after.carry && (text != [] ==> text[|text| - 1] == NEWLINE)
  {
    var data := t.carry + look.content[t.offset..];
    var n := Complete(data);
    assert data[..n] + data[n..] == data;
    if n > 0 {
      assert data[..n][n - 1] == NEWLINE;
    }
  }

  /** One poll of a growing board delivers the next complete lines, no byte twice and none left out, and takes in
      everything that was there when the board was looked at. */
  lemma {:induction false} ReadInStep(t: Tail, delivered: Bytes, before: Bytes, look: Look)
    requires InStep(t, delivered, before) && GrownSince(t, before, look)
    ensures var (after, text) := Read(t, look, false);
      && InStep(after, delivered + text, look.content)
      && look.size <= after.offset
  {
    assert before[..t.offset] == look.content[..t.offset];
    if t.stat == Some((look.size, look.mtime)) {
      assert delivered + [] == delivered;
    } else {
      ReadOn(t, look);
      Rejoin(t, delivered, look, Read(t, look, false).0, Read(t, look, false).1);
    }
  }

  lemma {:induction false} Rejoin(t: Tail, delivered: Bytes, look: Look, after: Tail, text: Bytes)
    requires t.offset <= |look.content| && delivered + t.carry == look.content[..t.offset]
    requires text + after.carry == t.carry + look.content[t.offset..]
    ensures delivered + text + after.carry == look.content[..|look.content|]
  {
    Regroup(delivered, t.carry, look.content[t.offset..], text, after.carry);
    assert look.content[..t.offset] + look.content[t.offset..] == look.content;
  }

  lemma {:induction false} Regroup(a: Bytes, b: Bytes, d: Bytes, e: Bytes, f: Bytes)
    requires b + d == e + f
    ensures (a + b) + d == (a + e) + f
  {
    AppendAssociates(a, b, d);
    AppendAssociates(a, e, f);
  }

  /** A whole life of polls: the state after them and everything they returned. */
  function ReadAll(looks: seq<Look>): (Tail, Bytes) {
    if looks == [] then (START, []) else
      var (t, delivered) := ReadAll(looks[..|looks| - 1]);
      var (after, text) := Read(t, looks[|looks| - 1], false);
      (after, delivered + text)
  }

  ghost predicate Growing(looks: seq<Look>) {
    && (forall i | 0 <= i < |looks| :: looks[i].size <= |looks[i].content|)
    && (forall i | 0 < i < |looks| ::
        looks[i - 1].content <= looks[i].content && |looks[i - 1].content| <= looks[i].size)
  }

  /** After any polls of a growing board the texts returned and the carry are exactly its first `offset` bytes, the
      carry holds no newline, and nothing that was there at the last poll's stat is missing. */
  lemma {:induction false} TailerExact(looks: seq<Look>)
    requires Growing(looks) && looks != []
    ensures var (t, delivered) := ReadAll(looks);
      var last := looks[|looks| - 1];
      InStep(t, delivered, last.content) && last.size <= t.offset
  {
    var front, last := looks[..|looks| - 1], looks[|looks| - 1];
    var (t, delivered) := ReadAll(front);
    if front == [] {
      var none: Bytes := [];
      assert none + none == last.content[..0];
      ReadInStep(START, [], [], last);
    } else {
      assert front[|front| - 1] == looks[|looks| - 2];
      TailerExact(front);
      ReadInStep(t, delivered, front[|front| - 1].content, last);
    }
  }

  // ---------------------------------------------------------------- a board that shrank

  /** The rescan after a shrink takes the board as it now is exactly when no partial line was being carried:
      the offset is reset and the carry is not. */
  lemma {:induction false} ShrinkExact(t: Tail, look: Look)
    requires look.size < t.offset && t.stat != Some((look.size, look.mtime))
    ensures var (after, text) := Read(t, look, false);
      after.offset == |look.content| && (text + after.carry == look.content <==> t.carry == [])
  {
    var (after, text) := Read(t, look, false);
    assert look.content[0..] == look.content;
    assert text + after.carry == t.carry + look.content;
    if t.carry == [] {
      assert t.carry + look.content == look.content;
    } else {
      assert |t.carry + look.content| != |look.content|;
    }
  }

  // ---------------------------------------------------------------- lines

  /** The complete lines of a text, and what follows the last of them. */
  function LinesOf(text: Bytes): (seq<Bytes>, Bytes) {
    if text == [] then ([], []) else
      var (lines, rest) := LinesOf(text[..|text| - 1]);
      var last := text[|text| - 1];
      if last == NEWLINE then (lines + [rest], []) else (lines, rest + [last])
  }

  /** Each line with its newline, one after the other. */
  function Ended(lines: seq<Bytes>): Bytes {
    if lines == [] then [] else Ended(lines[..|lines| - 1]) + lines[|lines| - 1] + [NEWLINE]
  }

  /** The lines with their newlines and the rest are the text again, and none of them has a newline in it. */
  lemma {:induction false} LinesExactly(text: Bytes)
    ensures var (lines, rest) := LinesOf(text);
      && Ended(lines) + rest == text && NEWLINE !in rest && forall line | line in lines :: NEWLINE !in line
  {
    if text != [] {
      var front, last := text[..|text| - 1], text[|text| - 1];
      var (lines, rest) := LinesOf(front);
      LinesExactly(front);
      LastSplit(text);
      if last == NEWLINE {
        assert (lines + [rest])[..|lines|] == lines;
        assert Ended(lines + [rest]) + [] == Ended(lines) + rest + [NEWLINE];
      } else {
        AppendAssociates(Ended(lines), rest, [last]);
      }
    }
  }

  /** A poll told to take the backlog delivers the whole board, whatever was read before, when nothing is carried. */
  lemma {:induction false} BacklogReadsAll(t: Tail, look: Look)
    requires t.stat != Some((look.size, look.mtime)) && t.carry == []
    ensures var (after, text) := Read(t, look, true);
      text + after.carry == look.content && after.offset == |look.content|
  {
    assert look.content[0..] == look.content && t.carry + look.content == look.content;
    var n := Complete(look.content);
    assert look.content[..n] + look.content[n..] == look.content;
  }

  lemma {:induction false} LinesEndWhole(text: Bytes)
    requires text == [] || text[|text| - 1] == NEWLINE
    ensures LinesOf(text).1 == []
  {
  }

  /** After whole lines, the lines of what follows are its own. */
  lemma {:induction false} LinesAppend(a: Bytes, b: Bytes)
    requires a == [] || a[|a| - 1] == NEWLINE
    ensures LinesOf(a + b).0 == LinesOf(a).0 + LinesOf(b).0
    ensures LinesOf(a + b).1 == LinesOf(b).1
  {
    if b == [] {
      assert a + b == a;
      LinesEndWhole(a);
    } else {
      var front, last := b[..|b| - 1], b[|b| - 1];
      assert (a + b)[..|a + b| - 1] == a + front;
      LinesAppend(a, front);
      if last == NEWLINE {
        AppendAssociates(LinesOf(a).0, LinesOf(front).0, [LinesOf(front).1]);
      }
    }
  }

  /** A carried partial line adds no complete line. */
  lemma {:induction false} CarryAddsNoLine(text: Bytes)
    requires NEWLINE !in text
    ensures LinesOf(text).0 == []
  {
    if text != [] {
      CarryAddsNoLine(text[..|text| - 1]);
    }
  }

  /** What was delivered is exactly the complete lines of the bytes read. */
  lemma {:induction false} DeliveredLines(t: Tail, delivered: Bytes, content: Bytes)
    requires InStep(t, delivered, content)
    ensures LinesOf(delivered).0 == LinesOf(content[..t.offset]).0
  {
    LinesAppend(delivered, t.carry);
    CarryAddsNoLine(t.carry);
    assert LinesOf(delivered).0 + [] == LinesOf(delivered).0;
  }

  /** Reading on only adds lines. */
  lemma {:induction false} LinesGrow(text: Bytes, m: nat, n: nat)
    requires m <= n <= |text|
    ensures LinesOf(text[..m]).0 <= LinesOf(text[..n]).0
  {
    if m < n {
      LinesGrow(text, m, n - 1);
      assert text[..n][..n - 1] == text[..n - 1];
    }
  }
}
