/** Rows, ids, and the pure comparisons of the board merge driver. */
module BoardRows {
  import opened Prelude

  /** A JSON value as the driver looks at it: `json` is its canonical text, which decides
      equality; `text` is what `str` prints; `truthy` is what `if v` tests. */
  datatype Value = Value(json: string, text: string, truthy: bool)

  datatype Id = Num(n: int) | Str(s: string)

  type Fields = map<string, Value>

  /** A board row: an object with an optional id beside its other fields, or a bare JSON value. */
  datatype Row = Obj(id: Option<Id>, fields: Fields) | Bare(value: Value)

  /** The three library functions the driver treats as black boxes: the canonical text of a row,
      the hexadecimal SHA-256 of a payload's canonical text, and the first fifteen hexadecimal
      digits of a seed's SHA-256 read as a number. */
  datatype Codec = Codec(canon: Row -> string, digest: Row -> string, head: string -> nat)

  /** Two rows never share a canonical text. Assumed only where an order must be total. */
  ghost predicate CanonInjective(c: Codec) {
    forall a, b :: c.canon(a) == c.canon(b) ==> a == b
  }

  const TIMESTAMP_KEYS: seq<string> := ["updated_at", "timestamp", "ts", "created_at", "last_updated"]

  const IDENTITY_FIELDS: set<string> :=
    {"task_id", "title", "event", "event_type", "project", "provider", "model", "name", "slug"}

  // ---------------------------------------------------------------- ids

  const DERIVED_ID_BASE: nat := 1_000_000_000_000_000
  const DERIVED_ID_SPAN: nat := 1_000_000_000_000

  function IdText(id: Id): string {
    match id
    case Num(n) => if n < 0 then "-" + DecimalText(-n) else DecimalText(n)
    case Str(s) => s
  }

  /** Where the run of digits at the end of `s` begins; `|s|` when there is none. */
  function TailStart(s: string): (i: nat)
    ensures i <= |s| && forall j | i <= j < |s| :: IsDigit(s[j])
    ensures i > 0 ==> !IsDigit(s[i - 1])
  {
    if s == "" || !IsDigit(s[|s| - 1]) then |s| else
      var i := TailStart(s[..|s| - 1]);
      i
  }

  predicate HasTail(s: string) {
    TailStart(s) < |s|
  }

  predicate IsDerived(id: Id) {
    var s := IdText(id);
    HasTail(s) && DecimalValue(s[TailStart(s)..]) >= DERIVED_ID_BASE
  }

  lemma {:induction false} TailStartIs(s: string, i: nat)
    requires i <= |s| && forall j | i <= j < |s| :: IsDigit(s[j])
    requires i > 0 ==> !IsDigit(s[i - 1])
    ensures TailStart(s) == i
  {
  }

  /** On number ids "was invented by the driver" is exactly "reaches the reserved band". */
  lemma {:induction false} NumberDerived(n: int)
    ensures IsDerived(Num(n)) <==> (n >= DERIVED_ID_BASE || -n >= DERIVED_ID_BASE)
  {
    var s := IdText(Num(n));
    if n < 0 {
      DecimalRoundTrip(-n);
      TailStartIs(s, 1);
      assert s[1..] == DecimalText(-n);
    } else {
      DecimalRoundTrip(n);
      TailStartIs(s, 0);
      assert s[0..] == DecimalText(n);
    }
  }

  /** And on prefixed numbers exactly "its number does". */
  lemma {:induction false} PrefixedDerived(prefix: string, n: nat)
    requires prefix != "" && !IsDigit(prefix[|prefix| - 1])
    ensures IsDerived(Str(prefix + DecimalText(n))) <==> n >= DERIVED_ID_BASE
  {
    var s := prefix + DecimalText(n);
    TailStartIs(s, |prefix|);
    assert s[|prefix|..] == DecimalText(n);
    DecimalRoundTrip(n);
  }

  /** An id that does not end in a digit is a writer's. */
  lemma {:induction false} TextNotDerived(s: string)
    requires s == "" || !IsDigit(s[|s| - 1])
    ensures !IsDerived(Str(s))
  {
  }

  lemma {:induction false} NumberTextInjective(m: int, n: int)
    requires IdText(Num(m)) == IdText(Num(n))
    ensures m == n
  {
    if m < 0 && n < 0 {
      MinusText(m);
      MinusText(n);
    } else if m >= 0 && n >= 0 {
      DecimalRoundTrip(m);
      DecimalRoundTrip(n);
    } else if m < 0 {
      SignShows(m, n);
    } else {
      SignShows(n, m);
    }
  }

  lemma {:induction false} SignShows(m: int, n: int)
    requires m < 0 <= n
    ensures IdText(Num(m)) != IdText(Num(n))
  {
    assert IdText(Num(m))[0] == '-' && IsDigit(IdText(Num(n))[0]);
  }

  lemma {:induction false} MinusText(n: int)
    requires n < 0
    ensures IdText(Num(n))[1..] == DecimalText(-n) && DecimalValue(IdText(Num(n))[1..]) == -n
  {
    DecimalRoundTrip(-n);
    assert IdText(Num(n))[1..] == DecimalText(-n);
  }

  /** Candidate ids in order of preference: a writer's id before a derived one, numbers before strings. */
  predicate IdLe(a: Id, b: Id) {
    if IsDerived(a) != IsDerived(b) then !IsDerived(a)
    else match (a, b)
      case (Num(m), Num(n)) => m <= n
      case (Num(_), Str(_)) => true
      case (Str(_), Num(_)) => false
      case (Str(s), Str(t)) => StrLe(s, t)
  }

  lemma {:induction false} IdLeTotalOrder()
    ensures TotalPreorder(IdLe)
    ensures forall a, b :: IdLe(a, b) && IdLe(b, a) ==> a == b
  {
    forall a, b ensures IdLe(a, b) || IdLe(b, a) {
      if a.Str? && b.Str? { StrLeTotal(a.s, b.s); }
    }
    forall a, b, d | IdLe(a, b) && IdLe(b, d) ensures IdLe(a, d) {
      if a.Str? && b.Str? && d.Str? && IsDerived(a) == IsDerived(b) == IsDerived(d) {
        StrLeTransitive(a.s, b.s, d.s);
      }
    }
    forall a, b | IdLe(a, b) && IdLe(b, a) ensures a == b {
      if a.Str? && b.Str? { StrLeAntisymmetric(a.s, b.s); }
    }
  }

  // ---------------------------------------------------------------- which row is this?

  function RowId(row: Row): Option<Id> {
    if row.Obj? then row.id else None
  }

  /** Its id's text when it has one, else its content. */
  datatype Key = ById(text: string) | ByContent(row: Row)

  function RowKey(row: Row): Key {
    if RowId(row).Some? then ById(IdText(row.id.value)) else ByContent(row)
  }

  /** The row without its allocated id. */
  function Payload(row: Row): Row {
    if row.Obj? then row.(id := None) else row
  }

  /** Content is every field and nothing else: ids, present or not, play no part in it. */
  lemma {:induction false} PayloadExactly(a: Row, b: Row)
    ensures Payload(a) == Payload(b) <==> a == b || (a.Obj? && b.Obj? && a.fields == b.fields)
    ensures Payload(a).Obj? <==> a.Obj?
  {
  }

  predicate AgreeOnIdentity(f: Fields, g: Fields) {
    forall k | k in IDENTITY_FIELDS :: k in f && k in g ==> f[k] == g[k]
  }

  /** Could these be two versions of one row, or did two rows collide on an id? */
  predicate SameRow(a: Row, b: Row) {
    && RowKey(a) == RowKey(b)
    && if a.Obj? && b.Obj? then AgreeOnIdentity(a.fields, b.fields) else a == b
  }

  /** Two rows under ids that print alike are versions of one row exactly when none of the nine fields that say what a
      row is stands in both with different values. */
  lemma {:induction false} SameRowExactly(a: Row, b: Row)
    requires RowId(a).Some? && RowId(b).Some?
    ensures SameRow(a, b) <==>
      && IdText(a.id.value) == IdText(b.id.value)
      && forall k | k in ["task_id", "title", "event", "event_type", "project", "provider", "model", "name", "slug"] ::
           k in a.fields && k in b.fields ==> a.fields[k] == b.fields[k]
  {
    var names := ["task_id", "title", "event", "event_type", "project", "provider", "model", "name", "slug"];
    assert forall k :: k in names <==> k in IDENTITY_FIELDS;
  }

  // ---------------------------------------------------------------- versions

  function StampFrom(f: Fields, keys: seq<string>): string {
    if keys == [] then ""
    else if keys[0] in f && f[keys[0]].truthy then f[keys[0]].text
    else StampFrom(f, keys[1..])
  }

  function Stamp(row: Row): string {
    if row.Obj? then StampFrom(row.fields, TIMESTAMP_KEYS) else ""
  }

  predicate Stamps(row: Row, key: string) {
    row.Obj? && key in row.fields && row.fields[key].truthy
  }

  lemma {:induction false} StampFromAt(row: Row, keys: seq<string>, n: nat)
    requires row.Obj? && n <= |keys| && forall i | 0 <= i < n :: !Stamps(row, keys[i])
    ensures StampFrom(row.fields, keys) ==
      if n == |keys| then "" else if Stamps(row, keys[n]) then row.fields[keys[n]].text
      else StampFrom(row.fields, keys[n + 1..])
  {
    if n > 0 {
      StampFromAt(row, keys[1..], n - 1);
      assert n < |keys| ==> keys[1..][n - 1] == keys[n] && keys[1..][n..] == keys[n + 1..];
    }
  }

  /** Which field stamps a row: the first of the five that holds something, and none when no field does. */
  lemma {:induction false} StampExactly(row: Row, n: nat)
    requires row.Obj? && n <= 5
    requires forall i | 0 <= i < n ::
        !Stamps(row, ["updated_at", "timestamp", "ts", "created_at", "last_updated"][i])
    ensures n == 5 ==> Stamp(row) == ""
    ensures n < 5 ==>
      var key := ["updated_at", "timestamp", "ts", "created_at", "last_updated"][n];
      Stamps(row, key) ==> Stamp(row) == row.fields[key].text
  {
    StampFromAt(row, TIMESTAMP_KEYS, n);
  }

  /** `a` wins over `b`: the later stamp, and between equal stamps the greater canonical text. */
  predicate Wins(c: Codec, a: Row, b: Row) {
    if Stamp(a) == Stamp(b) then StrLe(c.canon(b), c.canon(a)) else !StrLe(Stamp(a), Stamp(b))
  }

  function Overlay(older: Row, newer: Row): Row
    requires older.Obj? && newer.Obj?
  {
    Obj(if newer.id.Some? then newer.id else older.id, older.fields + newer.fields)
  }

  function MergePair(c: Codec, a: Row, b: Row): (r: Row)
    requires a.Obj? && b.Obj?
    ensures r.Obj? && r.fields.Keys == a.fields.Keys + b.fields.Keys
    ensures forall k | k in r.fields ::
      (k in a.fields && r.fields[k] == a.fields[k]) || (k in b.fields && r.fields[k] == b.fields[k])
  {
    if Wins(c, a, b) then Overlay(b, a) else Overlay(a, b)
  }

  /** The later version lies over the earlier one, its id included; between equal stamps the greater text is later. */
  lemma {:induction false} LaterOver(c: Codec, a: Row, b: Row)
    requires a.Obj? && b.Obj? && StrLe(Stamp(a), Stamp(b))
    requires Stamp(a) == Stamp(b) ==> StrLe(c.canon(a), c.canon(b)) && c.canon(a) != c.canon(b)
    ensures MergePair(c, a, b) == MergePair(c, b, a)
         == Obj(if b.id.Some? then b.id else a.id, a.fields + b.fields)
  {
    if StrLe(Stamp(b), Stamp(a)) {
      StrLeAntisymmetric(Stamp(a), Stamp(b));
    }
    if StrLe(c.canon(b), c.canon(a)) && StrLe(c.canon(a), c.canon(b)) {
      StrLeAntisymmetric(c.canon(a), c.canon(b));
    }
  }

  /** Position of a new row: timestamp, then content; never the id. */
  predicate OrderLe(c: Codec, a: Row, b: Row) {
    if Stamp(a) == Stamp(b) then StrLe(c.canon(Payload(a)), c.canon(Payload(b)))
    else StrLe(Stamp(a), Stamp(b))
  }

  lemma {:induction false} StampOfPayload(row: Row)
    ensures Stamp(Payload(row)) == Stamp(row)
  {
  }

  lemma {:induction false} OrderLeTotal(c: Codec, a: Row, b: Row)
    ensures OrderLe(c, a, b) || OrderLe(c, b, a)
  {
    StrLeTotal(Stamp(a), Stamp(b));
    StrLeTotal(c.canon(Payload(a)), c.canon(Payload(b)));
  }

  lemma {:induction false} OrderLeTransitive(c: Codec, a: Row, b: Row, d: Row)
    requires OrderLe(c, a, b) && OrderLe(c, b, d)
    ensures OrderLe(c, a, d)
  {
    if Stamp(a) == Stamp(b) == Stamp(d) {
      StrLeTransitive(c.canon(Payload(a)), c.canon(Payload(b)), c.canon(Payload(d)));
    } else if Stamp(a) != Stamp(b) && Stamp(b) != Stamp(d) {
      StrLeTransitive(Stamp(a), Stamp(b), Stamp(d));
      if Stamp(a) == Stamp(d) {
        StrLeAntisymmetric(Stamp(a), Stamp(b));
      }
    }
  }

  /** The order of new rows is total on payloads: a tie is the same content. */
  lemma {:induction false} OrderLeAntisymmetric(c: Codec, a: Row, b: Row)
    requires CanonInjective(c)
    requires OrderLe(c, a, b) && OrderLe(c, b, a)
    ensures Payload(a) == Payload(b)
  {
    if Stamp(a) == Stamp(b) {
      StrLeAntisymmetric(c.canon(Payload(a)), c.canon(Payload(b)));
    } else {
      StrLeAntisymmetric(Stamp(a), Stamp(b));
    }
  }

  /** Combining two versions never depends on which one came first. */
  lemma {:induction false} MergePairCommutes(c: Codec, a: Row, b: Row)
    requires CanonInjective(c) && a.Obj? && b.Obj?
    ensures MergePair(c, a, b) == MergePair(c, b, a)
  {
    StrLeTotal(c.canon(a), c.canon(b));
    StrLeTotal(Stamp(a), Stamp(b));
    if Stamp(a) == Stamp(b) {
      if Wins(c, a, b) && Wins(c, b, a) {
        StrLeAntisymmetric(c.canon(a), c.canon(b));
      }
    } else if StrLe(Stamp(a), Stamp(b)) && StrLe(Stamp(b), Stamp(a)) {
      StrLeAntisymmetric(Stamp(a), Stamp(b));
    }
  }

  // ---------------------------------------------------------------- what survives

  /** `big` still holds everything `small` said: all its fields by name, and every identity
      field it carries with the same value. */
  predicate Carries(big: Row, small: Row) {
    if small.Bare? then big == small
    else
      && big.Obj?
      && small.fields.Keys <= big.fields.Keys
      && forall k | k in IDENTITY_FIELDS :: k in small.fields ==> big.fields[k] == small.fields[k]
  }

  lemma {:induction false} CarriesTransitive(a: Row, b: Row, d: Row)
    requires Carries(a, b) && Carries(b, d)
    ensures Carries(a, d)
  {
  }

  /** Overlaying two versions of one row loses neither. */
  lemma {:induction false} MergePairCarries(c: Codec, a: Row, b: Row)
    requires a.Obj? && b.Obj? && SameRow(a, b)
    ensures Carries(MergePair(c, a, b), a) && Carries(MergePair(c, a, b), b)
    ensures RowKey(a).ById? ==> RowKey(MergePair(c, a, b)) == RowKey(a)
  {
  }
}
