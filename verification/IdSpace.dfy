/** The file-wide id space: ids derived from a row's content, and the allocator that hands them out. */
module IdSpace {
  import opened Prelude
  import opened BoardRows

  // ---------------------------------------------------------------- derived ids

  function Seed(hash: string, salt: nat): string {
    if salt == 0 then hash else hash + "#" + DecimalText(salt)
  }

  function BandValue(c: Codec, hash: string, salt: nat): (n: nat)
    ensures DERIVED_ID_BASE <= n < DERIVED_ID_BASE + DERIVED_ID_SPAN
  {
    DERIVED_ID_BASE + c.head(Seed(hash, salt)) % DERIVED_ID_SPAN
  }

  ghost predicate SomeSaltFree(c: Codec, hash: string, taken: set<Id>) {
    exists salt: nat :: Num(BandValue(c, hash, salt)) !in taken
  }

  /** What the salt loop's termination rests on: the salted hashes of one payload cannot all land
      on fewer ids than the band holds. */
  ghost predicate SaltsSpread(c: Codec) {
    forall hash: string, taken: set<Id> | |taken| < DERIVED_ID_SPAN :: SomeSaltFree(c, hash, taken)
  }

  /** The first salt that lands outside `taken`. */
  ghost function FreeSalt(c: Codec, hash: string, taken: set<Id>): (salt: nat)
    requires SomeSaltFree(c, hash, taken)
    ensures Num(BandValue(c, hash, salt)) !in taken
    ensures forall k: nat :: k < salt ==> Num(BandValue(c, hash, k)) in taken
  {
    var free := (k: nat) => Num(BandValue(c, hash, k)) !in taken;
    var k: nat :| Num(BandValue(c, hash, k)) !in taken;
    assert free(k);
    assert forall k: nat :: !free(k) ==> Num(BandValue(c, hash, k)) in taken;
    Least(free)
  }

  /** The id content earns: the band value of the first salt that lands outside `taken`. */
  ghost function DerivedId(c: Codec, hash: string, taken: set<Id>): (n: nat)
    ensures DERIVED_ID_BASE <= n < DERIVED_ID_BASE + DERIVED_ID_SPAN
    ensures SomeSaltFree(c, hash, taken) ==> Num(n) !in taken
  {
    BandValue(c, hash, if SomeSaltFree(c, hash, taken) then FreeSalt(c, hash, taken) else 0)
  }

  /** While the unsalted id is free the other ids in use do not matter. */
  lemma {:induction false} UnsaltedWhenFree(c: Codec, hash: string, taken: set<Id>)
    requires Num(BandValue(c, hash, 0)) !in taken
    ensures DerivedId(c, hash, taken) == BandValue(c, hash, 0)
  {
    assert SomeSaltFree(c, hash, taken);
    assert FreeSalt(c, hash, taken) == 0;
  }

  /** The `k`-th number that a hash is tried at: the hash itself, then the hash with a counter behind a hash mark. */
  function Tried(c: Codec, hash: string, k: nat): nat {
    1_000_000_000_000_000 + c.head(if k == 0 then hash else hash + "#" + DecimalText(k)) % 1_000_000_000_000
  }

  /** The derived id is the first of the tried numbers that is free. */
  lemma {:induction false} DerivedExactly(c: Codec, hash: string, taken: set<Id>, k: nat)
    requires Num(Tried(c, hash, k)) !in taken && forall j: nat | j < k :: Num(Tried(c, hash, j)) in taken
    ensures DerivedId(c, hash, taken) == Tried(c, hash, k)
  {
    assert forall j: nat :: BandValue(c, hash, j) == Tried(c, hash, j);
    assert SomeSaltFree(c, hash, taken);
    var salt := FreeSalt(c, hash, taken);
    hide Tried, BandValue;
    assert Num(Tried(c, hash, salt)) !in taken;
    assert k < salt ==> Num(BandValue(c, hash, k)) in taken;
  }

  method ComputeDerivedId(c: Codec, hash: string, taken: set<Id>) returns (cand: nat)
    requires SomeSaltFree(c, hash, taken)
    ensures cand == DerivedId(c, hash, taken)
  {
    ghost var stop := FreeSalt(c, hash, taken);
    var salt := 0;
    while true
      invariant salt <= stop
      decreases stop - salt
    {
      cand := BandValue(c, hash, salt);
      if Num(cand) !in taken {
        return;
      }
      salt := salt + 1;
    }
  }

  // ---------------------------------------------------------------- suffixed ids

  function SuffixBase(like: string, hint: string): string {
    if hint == "" then like + "~1" else like + "~" + if |hint| <= 6 then hint else hint[..6]
  }

  function SuffixCandidate(base: string, n: nat): string {
    if n <= 1 then base else base + "." + DecimalText(n)
  }

  ghost predicate FreeSuffix(base: string, like: string, taken: set<Id>, n: nat) {
    n >= 1 && Str(SuffixCandidate(base, n)) !in taken && SuffixCandidate(base, n) != like
  }

  lemma {:induction false} SuffixCandidateInjective(base: string, m: nat, n: nat)
    requires 1 <= m < n
    ensures SuffixCandidate(base, m) != SuffixCandidate(base, n)
  {
    var s := SuffixCandidate(base, n);
    assert s[|base| + 1..] == DecimalText(n);
    DecimalRoundTrip(n);
    if m > 1 && SuffixCandidate(base, m) == s {
      assert SuffixCandidate(base, m)[|base| + 1..] == DecimalText(m);
      DecimalRoundTrip(m);
    }
  }

  /** Pigeonhole: a finite set of busy strings leaves a numbered candidate free. */
  lemma {:induction false} SuffixSomewhere(base: string, busy: set<string>, from: nat)
    requires from >= 1
    ensures exists n: nat :: n >= from && SuffixCandidate(base, n) !in busy
    decreases |busy|
  {
    var cand := SuffixCandidate(base, from);
    if cand in busy {
      SuffixSomewhere(base, busy - {cand}, from + 1);
      var n: nat :| n >= from + 1 && SuffixCandidate(base, n) !in busy - {cand};
      SuffixCandidateInjective(base, from, n);
      assert SuffixCandidate(base, n) !in busy;
    }
  }

  lemma {:induction false} FreeSuffixExists(base: string, like: string, taken: set<Id>)
    ensures exists n: nat :: FreeSuffix(base, like, taken, n)
  {
    var busy := (set x | x in taken && x.Str? :: x.s) + {like};
    SuffixSomewhere(base, busy, 1);
    var n: nat :| n >= 1 && SuffixCandidate(base, n) !in busy;
    assert FreeSuffix(base, like, taken, n);
  }

  ghost function SuffixNumber(base: string, like: string, taken: set<Id>): (n: nat)
    ensures FreeSuffix(base, like, taken, n)
    ensures forall k: nat :: k < n ==> !FreeSuffix(base, like, taken, k)
  {
    FreeSuffixExists(base, like, taken);
    var free := (n: nat) => FreeSuffix(base, like, taken, n);
    var k: nat :| FreeSuffix(base, like, taken, k);
    assert free(k);
    assert forall k: nat :: FreeSuffix(base, like, taken, k) ==> free(k);
    Least(free)
  }

  ghost function SuffixedId(like: string, hint: string, taken: set<Id>): (s: string)
    ensures Str(s) !in taken && s != like
  {
    var base := SuffixBase(like, hint);
    SuffixCandidate(base, SuffixNumber(base, like, taken))
  }

  /** The `k`-th text a plain id is tried at: six digits of the hash behind a tilde, then a counter behind a dot. */
  function TriedText(like: string, hint: string, k: nat): string
    requires |hint| >= 6
  {
    like + "~" + hint[..6] + if k <= 1 then "" else "." + DecimalText(k)
  }

  /** The suffixed id is the first of the tried texts that is free. */
  lemma {:induction false} SuffixedExactly(like: string, hint: string, taken: set<Id>, k: nat)
    requires |hint| >= 6 && k >= 1 && Str(TriedText(like, hint, k)) !in taken
    requires forall j: nat | 1 <= j < k :: Str(TriedText(like, hint, j)) in taken
    ensures SuffixedId(like, hint, taken) == TriedText(like, hint, k)
  {
    var base := SuffixBase(like, hint);
    forall j: nat ensures SuffixCandidate(base, j) == TriedText(like, hint, j) && TriedText(like, hint, j) != like {
      SuffixIs(like, hint, j);
    }
    var n := SuffixNumber(base, like, taken);
    hide TriedText, SuffixCandidate, SuffixBase;
    assert FreeSuffix(base, like, taken, k) && FreeSuffix(base, like, taken, n);
    assert k < n ==> !FreeSuffix(base, like, taken, k);
  }

  lemma {:induction false} SuffixIs(like: string, hint: string, k: nat)
    requires |hint| >= 6
    ensures SuffixCandidate(SuffixBase(like, hint), k) == TriedText(like, hint, k) != like
  {
    var s := TriedText(like, hint, k);
    assert SuffixBase(like, hint) + "" == SuffixBase(like, hint);
    assert |s| > |like|;
  }

  // ---------------------------------------------------------------- a fresh id

  function SeedText(hint: string, otherwise: string): string {
    if hint == "" then otherwise else hint
  }

  /** The id a renumbered row gets: `like` is the id it arrived with, `hint` its content hash. */
  ghost function FreshId(c: Codec, like: Option<Id>, hint: string, taken: set<Id>): Id {
    match like
    case None => Num(DerivedId(c, SeedText(hint, "row"), taken))
    case Some(Num(_)) => Num(DerivedId(c, SeedText(hint, "row"), taken))
    case Some(Str(s)) =>
      if HasTail(s) then Str(s[..TailStart(s)] + DecimalText(DerivedId(c, SeedText(hint, s), taken)))
      else Str(SuffixedId(s, hint, taken))
  }

  /** The salt loop is entered only for ids with a number to derive. */
  ghost predicate FreshTerminates(c: Codec, like: Option<Id>, hint: string, taken: set<Id>) {
    match like
    case None => SomeSaltFree(c, SeedText(hint, "row"), taken)
    case Some(Num(_)) => SomeSaltFree(c, SeedText(hint, "row"), taken)
    case Some(Str(s)) => HasTail(s) ==> SomeSaltFree(c, SeedText(hint, s), taken)
  }

  /** A string id ending in digits keeps its prefix; freshness is then checked on the bare number only. */
  predicate Tailed(id: Id) {
    id.Str? && HasTail(id.s)
  }

  /** A number or a prefixed number: the ids whose renumbering is recognisable. */
  predicate Numeric(id: Id) {
    id.Num? || Tailed(id)
  }

  lemma {:induction false} FreshIsFree(c: Codec, like: Option<Id>, hint: string, taken: set<Id>)
    requires FreshTerminates(c, like, hint, taken)
    requires like.Some? ==> !Tailed(like.value)
    ensures FreshId(c, like, hint, taken) !in taken
  {
  }

  /** A renumbered number or prefixed id is recognisably the driver's own, and keeps its prefix. */
  lemma {:induction false} FreshIsDerived(c: Codec, like: Option<Id>, hint: string, taken: set<Id>)
    requires like.None? || Numeric(like.value)
    ensures IsDerived(FreshId(c, like, hint, taken))
    ensures like.Some? && Tailed(like.value) ==>
      var renewed := FreshId(c, like, hint, taken);
      renewed.Str? && TailStart(renewed.s) == TailStart(like.value.s)
      && renewed.s[..TailStart(renewed.s)] == like.value.s[..TailStart(like.value.s)]
  {
    var renewed := FreshId(c, like, hint, taken);
    if renewed.Num? {
      NumberDerived(renewed.n);
    } else {
      var s := like.value.s;
      var n := DerivedId(c, SeedText(hint, s), taken);
      TailStartIs(renewed.s, TailStart(s));
      assert renewed.s[TailStart(s)..] == DecimalText(n);
      DecimalRoundTrip(n);
    }
  }

  function IdsOf(rows: seq<Row>): set<Id> {
    set i | 0 <= i < |rows| && RowId(rows[i]).Some? :: rows[i].id.value
  }

  class IdAllocator {
    var taken: set<Id>

    constructor (rows: seq<Row>)
      ensures taken == IdsOf(rows)
    {
      taken := {};
      new;
      for i := 0 to |rows|
        invariant taken == IdsOf(rows[..i])
      {
        if RowId(rows[i]).Some? {
          taken := taken + {rows[i].id.value};
        }
      }
      assert rows[..|rows|] == rows;
    }

    method Claim(id: Id)
      modifies this
      ensures taken == old(taken) + {id}
    {
      taken := taken + {id};
    }

    method Fresh(c: Codec, like: Option<Id>, hint: string) returns (id: Id)
      requires FreshTerminates(c, like, hint, taken)
      modifies this
      ensures id == FreshId(c, like, hint, old(taken))
      ensures taken == if like.Some? && like.value.Str? && !Tailed(like.value) then old(taken) + {id} else old(taken)
    {
      if like.None? || like.value.Num? {
        var n := ComputeDerivedId(c, SeedText(hint, "row"), taken);
        return Num(n);
      }
      var s := like.value.s;
      if HasTail(s) {
        var n := ComputeDerivedId(c, SeedText(hint, s), taken);
        return Str(s[..TailStart(s)] + DecimalText(n));
      }
      var base := SuffixBase(s, hint);
      ghost var stop := SuffixNumber(base, s, taken);
      var cand, n := base, 1;
      while Str(cand) in taken || cand == s
        invariant 1 <= n <= stop && cand == SuffixCandidate(base, n)
        decreases stop - n
      {
        assert !FreeSuffix(base, s, taken, n);
        n := n + 1;
        cand := SuffixCandidate(base, n);
      }
      assert FreeSuffix(base, s, taken, n);
      taken := taken + {Str(cand)};
      return Str(cand);
    }
  }
}
