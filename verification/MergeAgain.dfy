/** Merging in again what is already in: exactly which collisions the merge settles for good. */
module MergeAgain {
  import opened Prelude
  import opened BoardRows
  import opened IdSpace
  import opened MergeSpec
  import opened MergeIds
  import opened MergeVersions
  import opened MergeCanonical
  import opened MergeSymmetry
  import opened MergeLimits

  // ---------------------------------------------------------------- suffixed ids are not recognised

  function Pow10(n: nat): nat {
    if n == 0 then 1 else 10 * Pow10(n - 1)
  }

  lemma {:induction false} DigitsBound(s: string)
    requires forall i | 0 <= i < |s| :: IsDigit(s[i])
    ensures DecimalValue(s) < Pow10(|s|)
  {
    if s != "" {
      DigitsBound(s[..|s| - 1]);
    }
  }

  lemma {:induction false} PowGrows(m: nat, n: nat)
    requires m <= n
    ensures Pow10(m) <= Pow10(n)
  {
    if m < n {
      PowGrows(m, n - 1);
    }
  }

  lemma {:induction false} SixDigits(s: string)
    requires |s| <= 6 && forall i | 0 <= i < |s| :: IsDigit(s[i])
    ensures DecimalValue(s) < DERIVED_ID_BASE
  {
    DigitsBound(s);
    PowGrows(|s|, 6);
    assert Pow10(6) == 10 * (10 * (10 * (10 * (10 * (10 * 1)))));
  }

  /** A short text behind a tilde ends in a short number at most. */
  lemma {:induction false} TildeNotDerived(s: string, h: string)
    requires |h| <= 6
    ensures !IsDerived(Str(s + "~" + h))
  {
    var t := s + "~" + h;
    var k := TailStart(t);
    assert t[|s|] == '~' && (k <= |s| ==> IsDigit(t[|s|]));
    SixDigits(t[k..]);
  }

  lemma {:induction false} SuffixBaseNotDerived(s: string, hint: string)
    ensures !IsDerived(Str(SuffixBase(s, hint))) && SuffixBase(s, hint) != s
  {
    var h := if hint == "" then "1" else if |hint| <= 6 then hint else hint[..6];
    TildeNotDerived(s, h);
    assert s + "~1" == s + "~" + "1";
    assert SuffixBase(s, hint) == s + "~" + h;
  }

  lemma {:induction false} FirstSuffixFree(s: string, hint: string)
    ensures SuffixedId(s, hint, {Str(s)}) == SuffixBase(s, hint)
  {
    var base := SuffixBase(s, hint);
    SuffixBaseNotDerived(s, hint);
    assert FreeSuffix(base, s, {Str(s)}, 1);
    assert SuffixNumber(base, s, {Str(s)}) <= 1;
  }

  /** The id a colliding row is given while only the disputed id is in use. */
  ghost function Resolved(c: Codec, x: Id, p: Row): Id {
    FreshId(c, Some(x), c.digest(p), {x})
  }

  lemma {:induction false} ResolvedDerived(c: Codec, x: Id, p: Row)
    ensures IsDerived(Resolved(c, x, p)) <==> Numeric(x)
    ensures !Numeric(x) ==> Resolved(c, x, p) != x
  {
    if Numeric(x) {
      FreshIsDerived(c, Some(x), c.digest(p), {x});
    } else {
      FirstSuffixFree(x.s, c.digest(p));
      SuffixBaseNotDerived(x.s, c.digest(p));
    }
  }

  // ---------------------------------------------------------------- two rows of two contents

  lemma {:induction false} TakenOfTwo(x: Cluster, y: Cluster, id: Id)
    requires Payload(x.row) != Payload(y.row) && RowId(y.row) == Some(id)
    ensures InitialTaken([x, y]) == {id}
  {
    TwoApartEntries(x, y);
    forall z ensures z in InitialTaken([x, y]) <==> z == id {
      IdsOfClusters([y], z);
      assert [y][0] in [y];
    }
  }

  /** The first keeps the disputed id and the second is given the resolved one. */
  lemma {:induction false} CollisionSettled(c: Codec, a: Row, b: Row, x: Id)
    requires RowId(a) == RowId(b) == Some(x) && Payload(a) != Payload(b)
    ensures Settle(c, [Newcomer(a), Newcomer(b)]) == [a, b.(id := Some(Resolved(c, x, Payload(b))))]
  {
    var s, t, h := Single(Newcomer(a)), Single(Newcomer(b)), Resolved(c, x, Payload(b));
    CollisionEntry(a, x);
    CollisionEntry(b, x);
    hide *;
    TwoApartEntries(Newcomer(a), Newcomer(b));
    TakenOfTwo(Newcomer(a), Newcomer(b), x);
    SettleIs(c, [Newcomer(a), Newcomer(b)]);
    CollisionAssigned(c, s, t, a, b, x, h);
  }

  lemma {:induction false} CollisionEntry(a: Row, x: Id)
    requires RowId(a) == Some(x)
    ensures var e := Single(Newcomer(a)); e.row == a && e.ids == [x] && e.baseId.None? && a.Obj? && a.id == Some(x)
    ensures Newcomer(a).row == a && IsNew(Newcomer(a)) && ClusterIds(Newcomer(a)) == [x]
  {
    NewcomerIds(a);
  }

  lemma {:induction false} CollisionAssigned(c: Codec, d: Entry, e: Entry, a: Row, b: Row, x: Id, h: Id)
    requires d.row == a && d.ids == [x] && d.baseId.None? && a.Obj? && a.id == Some(x)
    requires e.row == b && e.ids == [x] && e.baseId.None? && b.Obj? && b.id == Some(x)
    requires h == Resolved(c, x, Payload(b))
    ensures Assign(c, [d, e], {}, {x}) == [a, b.(id := Some(h))]
  {
    OneCandidate(d, {}, x);
    AssignFirst(c, d, [e], {}, {x}, Some(x));
    OneCandidate(e, {x}, x);
    assert {} + {x} == {x} == {x} + {x} && Like(e) == Some(x);
    AssignFirst(c, e, [], {x}, {x}, Some(h));
    assert [d] + [e] == [d, e] && [e] + [] == [e];
  }

  /** Rows of two contents under two ids stand as they came. */
  lemma {:induction false} ApartSettled(c: Codec, a: Row, b: Row, x: Id, y: Id)
    requires RowId(a) == Some(x) && RowId(b) == Some(y) && x != y && Payload(a) != Payload(b)
    ensures Settle(c, [Newcomer(a), Newcomer(b)]) == [a, b]
  {
    CollisionEntry(a, x);
    CollisionEntry(b, y);
    hide *;
    TwoApartEntries(Newcomer(a), Newcomer(b));
    SettleIs(c, [Newcomer(a), Newcomer(b)]);
    ApartAssigned(c, Single(Newcomer(a)), Single(Newcomer(b)), a, b, x, y, InitialTaken([Newcomer(a), Newcomer(b)]));
  }

  lemma {:induction false} ApartAssigned(c: Codec, d: Entry, e: Entry, a: Row, b: Row, x: Id, y: Id, taken: set<Id>)
    requires d.row == a && d.ids == [x] && d.baseId.None? && a.Obj? && a.id == Some(x)
    requires e.row == b && e.ids == [y] && e.baseId.None? && b.Obj? && b.id == Some(y) && x != y
    ensures Assign(c, [d, e], {}, taken) == [a, b]
  {
    OneCandidate(d, {}, x);
    AssignFirst(c, d, [e], {}, taken, Some(x));
    OneCandidate(e, {} + {x}, y);
    AssignFirst(c, e, [], {} + {x}, taken + {x}, Some(y));
    assert [d] + [e] == [d, e] && [e] + [] == [e];
  }

  // ---------------------------------------------------------------- the merge of a collision

  /** The row emitted first keeps the id. */
  ghost predicate Emitted(c: Codec, a: Row, b: Row, lo: Row, hi: Row) {
    if OrderLe(c, a, b) then lo == a && hi == b else lo == b && hi == a
  }

  ghost predicate Disputed(a: Row, b: Row, x: Id) {
    RowId(a) == RowId(b) == Some(x) && !AgreeOnIdentity(a.fields, b.fields)
  }

  lemma {:induction false} EmittedFacts(c: Codec, a: Row, b: Row, x: Id, lo: Row, hi: Row)
    requires Disputed(a, b, x) && Emitted(c, a, b, lo, hi)
    ensures RowId(lo) == RowId(hi) == Some(x) && Payload(lo) != Payload(hi) && OrderLe(c, lo, hi)
    ensures !AgreeOnIdentity(lo.fields, hi.fields) && !SameRow(a, b) && RowId(a).Some? && RowId(b).Some? && lo.Obj?
    ensures hi.Obj?
  {
    DifferentContents(a, b);
    OrderLeTotal(c, a, b);
  }

  lemma {:induction false} CollisionMerged(c: Codec, a: Row, b: Row, x: Id, lo: Row, hi: Row)
    requires Disputed(a, b, x) && Emitted(c, a, b, lo, hi) && hi.Obj?
    ensures Merged(c, [], [a], [b]) == [lo, hi.(id := Some(Resolved(c, x, Payload(hi))))]
  {
    EmittedFacts(c, a, b, x, lo, hi);
    CollisionEntry(a, x);
    CollisionEntry(b, x);
    CollisionOrdered(c, a, b, x, lo, hi);
    hide *;
    MergedIs(c, [], [a], [b]);
    CollisionSettled(c, lo, hi, x);
  }

  lemma {:induction false} CollisionOrdered(c: Codec, a: Row, b: Row, x: Id, lo: Row, hi: Row)
    requires Disputed(a, b, x) && Emitted(c, a, b, lo, hi)
    ensures Ordered(c, Build(c, Arrivals([], [a], [b]))) == [Newcomer(lo), Newcomer(hi)]
  {
    EmittedFacts(c, a, b, x, lo, hi);
    BuildTwo(c, a, b);
    OrderEither(c, Newcomer(a), Newcomer(b));
  }

  // ---------------------------------------------------------------- merging a side in again

  /** A row that stands on the board already changes nothing. */
  lemma {:induction false} BuildAgain(c: Codec, a: Row, b: Row, again: Row)
    requires RowId(a).Some? && RowId(b).Some? && !SameRow(a, b) && (again == a || again == b)
    ensures Build(c, Arrivals([], [a, b], [again])) == [Newcomer(a), Newcomer(b)]
  {
    var i, j, k := Arrival(a, None), Arrival(b, None), Arrival(again, None);
    BuildPair(c, i, j);
    assert Arrivals([], [a, b], [again]) == [i, j] + [k];
    BuildSnoc(c, [i, j], k);
    AbsorbAgain(c, [Newcomer(a), Newcomer(b)], again, if again == a then 0 else 1);
  }

  lemma {:induction false} AbsorbAgain(c: Codec, cl: seq<Cluster>, row: Row, i: nat)
    requires i < |cl| && cl[i] == Newcomer(row) && RowId(row).Some? && forall j | 0 <= j < i :: !SameRow(cl[j].row, row)
    ensures Absorb(c, cl, Arrival(row, None)) == cl
  {
    NothingNew(c, row);
    FoundAgain(cl, row, i);
    hide NoteRow, FindHit;
    assert cl[i := cl[i]] == cl;
  }

  lemma {:induction false} FoundAgain(cl: seq<Cluster>, row: Row, i: nat)
    requires i < |cl| && cl[i].row == row && row.Obj? && forall j | 0 <= j < i :: !SameRow(cl[j].row, row)
    ensures FindHit(cl, row) == Some(i)
  {
    assert SameRow(cl[i].row, row);
    hide SameRow;
    var hit := FindHit(cl, row);
  }

  lemma {:induction false} NothingNew(c: Codec, row: Row)
    requires RowId(row).Some?
    ensures NoteRow(c, Newcomer(row), Arrival(row, None)) == Newcomer(row)
  {
  }

  /** The winner of a collision merged in again. */
  lemma {:induction false} WinnerAgain(c: Codec, lo: Row, won: Row, x: Id, h: Id, again: Row)
    requires RowId(lo) == Some(x) && RowId(won) == Some(h) && x != h && !AgreeOnIdentity(lo.fields, won.fields)
    requires OrderLe(c, lo, won) && (again == lo || again == won)
    ensures Merged(c, [], [lo, won], [again]) == [lo, won]
  {
    DifferentContents(lo, won);
    CollisionEntry(lo, x);
    CollisionEntry(won, h);
    BuildAgain(c, lo, won, again);
    OrderTwo(c, Newcomer(lo), Newcomer(won));
    hide *;
    MergedIs(c, [], [lo, won], [again]);
    ApartSettled(c, lo, won, x, h);
  }

  // ---------------------------------------------------------------- the loser merged in again

  lemma {:induction false} OneAndTwo(x: Cluster, y: Cluster, z: Cluster)
    requires Payload(x.row) != Payload(y.row) && Payload(y.row) == Payload(z.row)
    ensures var s := [x] + [y, z];
      Logical(s, Contents(s)) == [Single(x)] + EntriesOf(s, [y, z])
  {
    hide *;
    OneAndTwoContents(x, y, z);
    OneAndTwoGroups(x, y, z);
    var s := [x] + [y, z];
    SingleEntry(s, x);
    LogicalOne(s, Payload(x.row));
    LogicalSnoc(s, [Payload(x.row)], Payload(y.row));
  }

  lemma {:induction false} OneAndTwoContents(x: Cluster, y: Cluster, z: Cluster)
    requires Payload(x.row) != Payload(y.row) && Payload(y.row) == Payload(z.row)
    ensures Contents([x] + [y, z]) == [Payload(x.row)] + [Payload(y.row)]
  {
    assert MapSeq(PayloadOf, [x] + [y, z]) == [Payload(x.row), Payload(y.row)] + [Payload(y.row)];
    DistinctThree(Payload(x.row), Payload(y.row));
    hide Payload, Distinct;
  }

  lemma {:induction false} DistinctThree<T(!new)>(a: T, b: T)
    requires a != b
    ensures Distinct([a, b] + [b]) == [a] + [b]
  {
    DistinctFew(a, b);
    DistinctSnoc([a, b], b);
  }

  lemma {:induction false} OneAndTwoGroups(x: Cluster, y: Cluster, z: Cluster)
    requires Payload(x.row) != Payload(y.row) && Payload(y.row) == Payload(z.row)
    ensures Group([x] + [y, z], Payload(x.row)) == [x] && Group([x] + [y, z], Payload(y.row)) == [y, z]
  {
    hide Payload, Filter;
    AloneInGroup([x] + [y, z], 0);
    FilterSplit(PaysAs(Payload(y.row)), [y, z], [x]);
  }

  /** A derived id folds the two rows of the loser. */
  lemma {:induction false} PairFolded(s: seq<Cluster>, y: Cluster, z: Cluster, h: Id, x: Id)
    requires ClusterIds(y) == [h] && ClusterIds(z) == [x] && h != x && IsDerived(h)
    ensures EntriesOf(s, [y, z]) == [Entry(y.row, [h, x], y.baseId, 2)]
  {
    PairIds(y, z, h, x);
    HeadDerived(h, [x]);
    assert [h] + [x] == [h, x];
    hide AnyDerived, GroupIds, AllContested, IsDerived, ClusterIds;
  }

  lemma {:induction false} HeadDerived(h: Id, ids: seq<Id>)
    requires IsDerived(h)
    ensures AnyDerived([h] + ids)
  {
    assert h in [h] + ids;
  }

  lemma {:induction false} PairIds(y: Cluster, z: Cluster, h: Id, x: Id)
    requires ClusterIds(y) == [h] && ClusterIds(z) == [x] && h != x
    ensures GroupIds([y, z]) == [h, x]
  {
    assert [y, z][..1] == [y] && [y][..0] == [];
    assert AllIds([y]) == [] + [h];
    assert AllIds([y, z]) == [h] + [x];
    DistinctFew(h, x);
  }

  /** With the disputed id held, the folded row stands under the derived one. */
  lemma {:induction false} FoldedAssigned(c: Codec, d: Entry, e: Entry, lo: Row, won: Row, x: Id, h: Id, taken: set<Id>)
    requires d.row == lo && d.ids == [x] && d.baseId.None? && lo.Obj? && lo.id == Some(x)
    requires e == Entry(won, [h, x], None, 2) && won.Obj? && won.id == Some(h) && h != x
    ensures Assign(c, [d] + [e], {}, taken) == [lo, won]
  {
    OneCandidate(d, {}, x);
    AssignFirst(c, d, [e], {}, taken, Some(x));
    OnlyUnclaimed(e, {} + {x}, h);
    AssignFirst(c, e, [], {} + {x}, taken + {x}, Some(h));
    assert [e] + [] == [e];
  }

  lemma {:induction false} OnlyUnclaimed(e: Entry, claimed: set<Id>, h: Id)
    requires e.baseId.None? && h in e.ids && h !in claimed && forall y | y in e.ids && y != h :: y in claimed
    ensures OwnChoice(e, claimed) == Some(h)
  {
    SortPermutes(IdLe, e.ids);
  }

  lemma {:induction false} LoserOrdered(c: Codec, lo: Row, won: Row, hi: Row, x: Id, h: Id)
    requires RowId(lo) == RowId(hi) == Some(x) && RowId(won) == Some(h) && IdText(h) != IdText(x)
    requires !AgreeOnIdentity(lo.fields, hi.fields) && Payload(won) == Payload(hi) && OrderLe(c, lo, won)
    ensures Ordered(c, Build(c, Arrivals([], [lo, won], [hi]))) == [Newcomer(lo)] + [Newcomer(won), Newcomer(hi)]
  {
    hide *;
    LoserApart(lo, won, hi, x, h);
    SameContentLe(c, won, hi);
    LoserBuild(c, lo, won, hi);
    ThreeInOrder(c, Newcomer(lo), Newcomer(won), Newcomer(hi));
    assert [Newcomer(lo)] + [Newcomer(won), Newcomer(hi)] == [Newcomer(lo), Newcomer(won), Newcomer(hi)];
  }

  lemma {:induction false} LoserApart(lo: Row, won: Row, hi: Row, x: Id, h: Id)
    requires RowId(lo) == RowId(hi) == Some(x) && RowId(won) == Some(h) && IdText(h) != IdText(x)
    requires !AgreeOnIdentity(lo.fields, hi.fields)
    ensures RowId(lo).Some? && RowId(won).Some? && RowId(hi).Some?
    ensures !SameRow(lo, won) && !SameRow(lo, hi) && !SameRow(won, hi)
    ensures IsNew(Newcomer(lo)) && IsNew(Newcomer(won)) && IsNew(Newcomer(hi))
    ensures Newcomer(lo).row == lo && Newcomer(won).row == won && Newcomer(hi).row == hi
  {
  }

  lemma {:induction false} LoserBuild(c: Codec, a: Row, b: Row, d: Row)
    requires !SameRow(a, b) && !SameRow(a, d) && !SameRow(b, d)
    ensures Build(c, Arrivals([], [a, b], [d])) == [Newcomer(a), Newcomer(b), Newcomer(d)]
  {
    var i, j, k := Arrival(a, None), Arrival(b, None), Arrival(d, None);
    BuildThree(c, i, j, k);
    assert Arrivals([], [a, b], [d]) == [i, j, k];
  }

  lemma {:induction false} LoserFolds(c: Codec, lo: Row, won: Row, hi: Row, x: Id, h: Id)
    requires RowId(lo) == RowId(hi) == Some(x) && RowId(won) == Some(h) && IdText(h) != IdText(x) && h != x
    requires IsDerived(h)
    requires !AgreeOnIdentity(lo.fields, hi.fields) && Payload(won) == Payload(hi) && OrderLe(c, lo, won)
    ensures Merged(c, [], [lo, won], [hi]) == [lo, won]
  {
    DifferentContents(lo, hi);
    CollisionEntry(lo, x);
    CollisionEntry(won, h);
    CollisionEntry(hi, x);
    hide *;
    LoserOrdered(c, lo, won, hi, x, h);
    MergedIs(c, [], [lo, won], [hi]);
    var s := [Newcomer(lo)] + [Newcomer(won), Newcomer(hi)];
    SettleIs(c, s);
    OneAndTwo(Newcomer(lo), Newcomer(won), Newcomer(hi));
    PairFolded(s, Newcomer(won), Newcomer(hi), h, x);
    FoldedAssigned(c, Single(Newcomer(lo)), Entry(won, [h, x], None, 2), lo, won, x, h, InitialTaken(s));
  }

  lemma {:induction false} GrownSettled(c: Codec, w: Cluster, y: Cluster, z: Cluster, h: Id, x: Id)
    requires Payload(w.row) != Payload(y.row) && Payload(y.row) == Payload(z.row)
    requires ClusterIds(w) == [x] && ClusterIds(y) == [h] && ClusterIds(z) == [x] && h != x
    requires !IsDerived(h) && !IsDerived(x)
    ensures |Settle(c, [w] + [y, z])| == 3
  {
    hide *;
    var s := [w] + [y, z];
    SettleIs(c, s);
    OneAndTwo(w, y, z);
    PairApart(w, y, z, y, h);
    TwoSingles(y, z);
    AssignSize(c, Logical(s, Contents(s)), {}, InitialTaken(s));
  }

  /** A suffixed id is not recognised as the driver's own, so the loser comes in again as a third row. */
  lemma {:induction false} LoserGrows(c: Codec, lo: Row, won: Row, hi: Row, x: Id, h: Id)
    requires RowId(lo) == RowId(hi) == Some(x) && RowId(won) == Some(h) && IdText(h) != IdText(x) && h != x
    requires !AgreeOnIdentity(lo.fields, hi.fields) && Payload(won) == Payload(hi) && OrderLe(c, lo, won)
    requires !IsDerived(h) && !IsDerived(x)
    ensures |Merged(c, [], [lo, won], [hi])| == 3
  {
    DifferentContents(lo, hi);
    CollisionEntry(lo, x);
    CollisionEntry(won, h);
    CollisionEntry(hi, x);
    hide *;
    LoserOrdered(c, lo, won, hi, x, h);
    MergedIs(c, [], [lo, won], [hi]);
    GrownSettled(c, Newcomer(lo), Newcomer(won), Newcomer(hi), h, x);
  }

  lemma {:induction false} AssignSize(c: Codec, es: seq<Entry>, claimed: set<Id>, taken: set<Id>)
    ensures |Assign(c, es, claimed, taken)| == |es|
  {
  }

  /** One of the pair has an id nobody else carries, and none is derived. */
  lemma {:induction false} PairApart(w: Cluster, y: Cluster, z: Cluster, u: Cluster, v: Id)
    requires (u == y || u == z) && v in ClusterIds(u)
    requires (w == u || v !in ClusterIds(w)) && (y == u || v !in ClusterIds(y)) && (z == u || v !in ClusterIds(z))
    requires (forall id | id in ClusterIds(y) :: !IsDerived(id)) && forall id | id in ClusterIds(z) :: !IsDerived(id)
    ensures EntriesOf([w] + [y, z], [y, z]) == MapSeq(Single, [y, z])
  {
    hide EntriesOf, IsDerived, ClusterIds, Contested;
    var s, g := [w] + [y, z], [y, z];
    assert g[0] in g && g[1] in g && u in g;
    forall cu | cu in s ensures v in ClusterIds(cu) ==> cu == u {
      assert cu == w || cu == y || cu == z;
    }
    OneCarrier(s, u, v);
    UndisputedApart(s, g, v);
  }

  lemma {:induction false} OneCarrier(ordered: seq<Cluster>, y: Cluster, h: Id)
    requires forall cu | cu in ordered :: h in ClusterIds(cu) ==> cu == y
    ensures !Contested(ordered, h)
  {
  }

  // ---------------------------------------------------------------- the exact condition

  lemma {:induction false} ResolvedText(c: Codec, x: Id, p: Row)
    requires Resolved(c, x, p) != x
    ensures IdText(Resolved(c, x, p)) != IdText(x)
  {
    var h := Resolved(c, x, p);
    if h.Num? && IdText(h) == IdText(x) {
      NumberTextInjective(h.n, x.n);
    }
  }

  /** What the merge makes of a collision. */
  ghost predicate Outcome(c: Codec, x: Id, lo: Row, hi: Row, won: Row, h: Id) {
    && RowId(lo) == RowId(hi) == Some(x) && !AgreeOnIdentity(lo.fields, hi.fields) && OrderLe(c, lo, hi)
    && h == Resolved(c, x, Payload(hi)) && hi.Obj? && won == hi.(id := Some(h))
  }

  lemma {:induction false} OutcomeFacts(c: Codec, x: Id, lo: Row, hi: Row, won: Row, h: Id)
    requires Outcome(c, x, lo, hi, won, h)
    ensures RowId(lo) == RowId(hi) == Some(x) && RowId(won) == Some(h) && Payload(won) == Payload(hi)
    ensures !AgreeOnIdentity(lo.fields, hi.fields) && !AgreeOnIdentity(lo.fields, won.fields)
    ensures OrderLe(c, lo, hi) && OrderLe(c, lo, won)
    ensures h != x ==> IdText(h) != IdText(x)
    ensures IsDerived(h) <==> Numeric(x)
    ensures !Numeric(x) ==> h != x && !IsDerived(x)
    ensures h == x ==> won == hi
  {
    StampOfPayload(hi);
    StampOfPayload(won);
    ResolvedDerived(c, x, Payload(hi));
    if h != x {
      ResolvedText(c, x, Payload(hi));
    }
  }

  /** The first row merged in again changes nothing. */
  lemma {:induction false} FirstAgain(c: Codec, x: Id, lo: Row, hi: Row, won: Row, h: Id)
    requires Outcome(c, x, lo, hi, won, h)
    ensures Merged(c, [], [lo, won], [lo]) == [lo, won]
  {
    OutcomeFacts(c, x, lo, hi, won, h);
    if h == x {
      SameIdAgain(c, x, lo, hi, lo);
    } else {
      WinnerAgain(c, lo, won, x, h, lo);
    }
  }

  /** The renumbering that lands on the disputed id itself: a board that repeats an id, and keeps repeating it. */
  lemma {:induction false} SameIdAgain(c: Codec, x: Id, lo: Row, hi: Row, again: Row)
    requires Outcome(c, x, lo, hi, hi, x) && (again == lo || again == hi)
    ensures Merged(c, [], [lo, hi], [again]) == [lo, hi]
  {
    DifferentContents(lo, hi);
    CollisionEntry(lo, x);
    CollisionEntry(hi, x);
    OutcomeFacts(c, x, lo, hi, hi, x);
    assert hi.(id := Some(x)) == hi && Resolved(c, x, Payload(hi)) == x;
    hide *;
    BuildAgain(c, lo, hi, again);
    OrderTwo(c, Newcomer(lo), Newcomer(hi));
    MergedIs(c, [], [lo, hi], [again]);
    CollisionSettled(c, lo, hi, x);
  }

  lemma {:induction false} SecondAgain(c: Codec, x: Id, lo: Row, hi: Row, won: Row, h: Id)
    requires Outcome(c, x, lo, hi, won, h)
    ensures Numeric(x) ==> Merged(c, [], [lo, won], [hi]) == [lo, won]
    ensures !Numeric(x) ==> |Merged(c, [], [lo, won], [hi])| == 3
  {
    OutcomeFacts(c, x, lo, hi, won, h);
    if h == x {
      SameIdAgain(c, x, lo, hi, hi);
    } else if Numeric(x) {
      LoserFolds(c, lo, won, hi, x, h);
    } else {
      LoserGrows(c, lo, won, hi, x, h);
    }
  }

  lemma {:induction false} IsOutcome(c: Codec, a: Row, b: Row, x: Id) returns (lo: Row, hi: Row, won: Row, h: Id)
    requires Disputed(a, b, x)
    ensures Outcome(c, x, lo, hi, won, h) && Merged(c, [], [a], [b]) == [lo, won]
    ensures if OrderLe(c, a, b) then lo == a && hi == b else lo == b && hi == a
  {
    lo, hi := if OrderLe(c, a, b) then a else b, if OrderLe(c, a, b) then b else a;
    EmittedFacts(c, a, b, x, lo, hi);
    h := Resolved(c, x, Payload(hi));
    won := hi.(id := Some(h));
    CollisionMerged(c, a, b, x, lo, hi);
  }

  /** IDEMPOTENT, exactly, for two rows that collide on one id: merging either in again changes nothing if and only if
      the id is a number or ends in one. A row renumbered with a suffix comes back as a third row. */
  lemma {:induction false} ReMergeExactly(c: Codec, a: Row, b: Row, x: Id)
    requires Disputed(a, b, x)
    ensures var m := Merged(c, [], [a], [b]);
      && (Merged(c, [], m, [b]) == m && Merged(c, [], m, [a]) == m <==> Numeric(x))
      && |m| == 2
      && (!Numeric(x) && OrderLe(c, a, b) ==> |Merged(c, [], m, [b])| == 3)
      && (!Numeric(x) && !OrderLe(c, a, b) ==> |Merged(c, [], m, [a])| == 3)
  {
    var lo, hi, won, h := IsOutcome(c, a, b, x);
    hide *;
    FirstAgain(c, x, lo, hi, won, h);
    SecondAgain(c, x, lo, hi, won, h);
  }

  // ---------------------------------------------------------------- lookalikes

  lemma {:induction false} SortThree<T>(le: (T, T) -> bool, x: T, y: T, z: T)
    requires le(y, z) && !le(x, y) && le(x, z)
    ensures SortBy(le, [x, y, z]) == [y] + [x, z]
  {
    SortTwo(le, y, z);
    SortTwo(le, x, z);
    assert [x, y, z][1..] == [y, z] && [y, z][1..] == [z];
    SortedStays(le, [z]);
    assert [x] + [z] == [x, z];
  }

  /** Content `x` under a disputed id and `z` under one of its own, `y` the other row under the disputed id. */
  ghost predicate Lookalikes(x: Row, y: Row, z: Row, n: Id, k: Id) {
    && RowId(x) == RowId(y) == Some(n) && RowId(z) == Some(k) && IdText(n) != IdText(k)
    && Payload(x) == Payload(z) && !AgreeOnIdentity(x.fields, y.fields)
  }

  lemma {:induction false} LookalikesOrdered(c: Codec, x: Row, y: Row, z: Row, n: Id, k: Id)
    requires Lookalikes(x, y, z, n, k) && !OrderLe(c, x, y)
    ensures Ordered(c, Build(c, Arrivals([], [x], [y, z]))) == [Newcomer(y)] + [Newcomer(x), Newcomer(z)]
  {
    hide *;
    LookalikesApart3(x, y, z, n, k);
    OrderLeTotal(c, x, y);
    SameContentLe(c, x, z);
    OrderLeTransitive(c, y, x, z);
    NewRow(x);
    NewRow(y);
    NewRow(z);
    BuildOneTwo(c, x, y, z);
    SortThree(ContentLe(c), Newcomer(x), Newcomer(y), Newcomer(z)) by {
      ContentLeMeans(c, Newcomer(x), Newcomer(y));
      ContentLeMeans(c, Newcomer(x), Newcomer(z));
      ContentLeMeans(c, Newcomer(y), Newcomer(z));
    }
    NewSorted(c, [Newcomer(x), Newcomer(y), Newcomer(z)]);
  }

  lemma {:induction false} ContentLeMeans(c: Codec, x: Cluster, y: Cluster)
    ensures ContentLe(c)(x, y) <==> OrderLe(c, x.row, y.row)
  {
  }

  lemma {:induction false} BuildOneTwo(c: Codec, x: Row, y: Row, z: Row)
    requires !SameRow(x, y) && !SameRow(x, z) && !SameRow(y, z)
    ensures Build(c, Arrivals([], [x], [y, z])) == [Newcomer(x), Newcomer(y), Newcomer(z)]
  {
    var i, j, l := Arrival(x, None), Arrival(y, None), Arrival(z, None);
    BuildThree(c, i, j, l);
    assert Arrivals([], [x], [y, z]) == [i, j, l];
  }

  lemma {:induction false} LookalikesApart3(x: Row, y: Row, z: Row, n: Id, k: Id)
    requires Lookalikes(x, y, z, n, k)
    ensures !SameRow(x, y) && !SameRow(x, z) && !SameRow(y, z) && Payload(y) != Payload(x) && Payload(x) == Payload(z)
    ensures RowId(x).Some? && RowId(y).Some? && RowId(z).Some?
  {
    DifferentContents(x, y);
  }

  lemma {:induction false} NewSorted(c: Codec, s: seq<Cluster>)
    requires forall i | 0 <= i < |s| :: IsNew(s[i])
    ensures Ordered(c, s) == SortBy(ContentLe(c), s)
  {
    AllNew(s);
    SortedStays(BasePosLe, []);
    assert [] + SortBy(ContentLe(c), s) == SortBy(ContentLe(c), s);
  }

  lemma {:induction false} LookalikesAssigned(c: Codec, d: Entry, e: Entry, f: Entry, y: Row, x: Row, z: Row, n: Id,
          k: Id, taken: set<Id>)
    requires d.row == y && d.ids == [n] && d.baseId.None? && y.Obj? && y.id == Some(n)
    requires e.row == x && e.ids == [n] && e.baseId.None? && x.Obj? && x.id == Some(n)
    requires f.row == z && f.ids == [k] && f.baseId.None? && z.Obj? && z.id == Some(k)
    requires Numeric(n) && !IsDerived(n) && !IsDerived(k) && n != k
    ensures var h := FreshId(c, Some(n), c.digest(Payload(x)), taken + {n});
      IsDerived(h) && Assign(c, [d] + [e, f], {}, taken) == [y, x.(id := Some(h)), z]
  {
    hide *;
    var h := FreshId(c, Some(n), c.digest(Payload(x)), taken + {n});
    FreshIsDerived(c, Some(n), c.digest(Payload(x)), taken + {n});
    EntryTakes(c, d, {}, taken, y, n);
    AssignFirst(c, d, [e, f], {}, taken, Some(n));
    EntryLoses(c, e, {} + {n}, taken + {n}, x, n);
    AssignFirst(c, e, [f], {} + {n}, taken + {n}, Some(h));
    EntryTakes(c, f, {} + {n} + {h}, taken + {n} + {h}, z, k);
    AssignFirst(c, f, [], {} + {n} + {h}, taken + {n} + {h}, Some(k));
    AddedSome({}, n);
    AddedSome(taken, n);
    AddedSome({} + {n}, h);
    AddedSome(taken + {n}, h);
    NothingLeft(c, {} + {n} + {h} + {k}, taken + {n} + {h} + {k});
    AddedSome({} + {n} + {h}, k);
    AddedSome(taken + {n} + {h}, k);
    assert [e] + [f] == [e, f] && [f] + [] == [f];
    assert [y] + ([x.(id := Some(h))] + ([z] + [])) == [y, x.(id := Some(h)), z];
  }

  lemma {:induction false} AddedSome(s: set<Id>, x: Id)
    ensures Added(s, Some(x)) == s + {x}
  {
  }

  lemma {:induction false} EntryTakes(c: Codec, e: Entry, claimed: set<Id>, taken: set<Id>, row: Row, x: Id)
    requires e.row == row && e.ids == [x] && e.baseId.None? && row.Obj? && row.id == Some(x) && x !in claimed
    ensures Choice(c, e, claimed, taken) == Some(x) && WithId(e.row, Some(x)) == row
  {
    OneCandidate(e, claimed, x);
  }

  lemma {:induction false} EntryLoses(c: Codec, e: Entry, claimed: set<Id>, taken: set<Id>, row: Row, x: Id)
    requires e.row == row && e.ids == [x] && e.baseId.None? && row.Obj? && row.id == Some(x) && x in claimed
    ensures var h := FreshId(c, Some(x), c.digest(Payload(row)), taken);
      Choice(c, e, claimed, taken) == Some(h) && WithId(e.row, Some(h)) == row.(id := Some(h))
  {
    OneCandidate(e, claimed, x);
    assert Like(e) == Some(x);
  }

  lemma {:induction false} LookalikesMerged(c: Codec, x: Row, y: Row, z: Row, n: Id, k: Id) returns (h: Id)
    requires Lookalikes(x, y, z, n, k) && !OrderLe(c, x, y) && x.Obj?
    requires Numeric(n) && !IsDerived(n) && !IsDerived(k)
    ensures IsDerived(h) && Merged(c, [], [x], [y, z]) == [y, x.(id := Some(h)), z]
  {
    LookalikesFacts(x, y, z, n, k);
    hide *;
    LookalikesOrdered(c, x, y, z, n, k);
    MergedIs(c, [], [x], [y, z]);
    var s := [Newcomer(y)] + [Newcomer(x), Newcomer(z)];
    SettleIs(c, s);
    OneAndTwo(Newcomer(y), Newcomer(x), Newcomer(z));
    PairApart(Newcomer(y), Newcomer(x), Newcomer(z), Newcomer(z), k);
    TwoSingles(Newcomer(x), Newcomer(z));
    h := FreshId(c, Some(n), c.digest(Payload(x)), InitialTaken(s) + {n});
    LookalikesAssigned(c, Single(Newcomer(y)), Single(Newcomer(x)), Single(Newcomer(z)), y, x, z, n, k,
        InitialTaken(s));
  }

  lemma {:induction false} LookalikesFacts(x: Row, y: Row, z: Row, n: Id, k: Id)
    requires Lookalikes(x, y, z, n, k)
    ensures Payload(y) != Payload(x) && Payload(x) == Payload(z) && n != k
    ensures forall r, i | (r == x && i == n) || (r == y && i == n) || (r == z && i == k) ::
      var e := Single(Newcomer(r)); e.row == r && e.ids == [i] && e.baseId.None? && r.Obj? && r.id == Some(i)
    ensures forall r | r == x || r == y || r == z :: Newcomer(r).row == r && IsNew(Newcomer(r))
    ensures ClusterIds(Newcomer(x)) == [n] && ClusterIds(Newcomer(y)) == [n] && ClusterIds(Newcomer(z)) == [k]
  {
    DifferentContents(x, y);
    CollisionEntry(x, n);
    CollisionEntry(y, n);
    CollisionEntry(z, k);
  }

  lemma {:induction false} BuildThreeAgain(c: Codec, a: Row, b: Row, d: Row)
    requires RowId(a).Some? && RowId(b).Some? && RowId(d).Some? && !SameRow(a, b) && !SameRow(a, d) && !SameRow(b, d)
    ensures Build(c, Arrivals([], [a, b, d], [a, d])) == [Newcomer(a), Newcomer(b), Newcomer(d)]
  {
    var i, j, k := Arrival(a, None), Arrival(b, None), Arrival(d, None);
    var cl := [Newcomer(a), Newcomer(b), Newcomer(d)];
    hide Build, SameRow;
    BuildThree(c, i, j, k);
    assert Arrivals([], [a, b, d], [a, d]) == [i, j, k] + [i] + [k];
    BuildSnoc(c, [i, j, k], i);
    BuildSnoc(c, [i, j, k] + [i], k);
    AbsorbAgain(c, cl, a, 0);
    AbsorbAgain(c, cl, d, 2);
  }

  lemma {:induction false} LookalikesReordered(c: Codec, y: Row, won: Row, z: Row)
    requires RowId(y).Some? && RowId(won).Some? && RowId(z).Some?
    requires !SameRow(y, won) && !SameRow(y, z) && !SameRow(won, z) && Payload(won) == Payload(z) && OrderLe(c, y, won)
    ensures Ordered(c, Build(c, Arrivals([], [y, won, z], [y, z]))) == [Newcomer(y)] + [Newcomer(won), Newcomer(z)]
  {
    NewRow(y);
    NewRow(won);
    NewRow(z);
    hide *;
    BuildThreeAgain(c, y, won, z);
    SameContentLe(c, won, z);
    ThreeInOrder(c, Newcomer(y), Newcomer(won), Newcomer(z));
    assert [Newcomer(y)] + [Newcomer(won), Newcomer(z)] == [Newcomer(y), Newcomer(won), Newcomer(z)];
  }

  /** Of the two rows of the loser the derived one folds the other. */
  lemma {:induction false} LookalikesSettled(c: Codec, y: Cluster, won: Cluster, z: Cluster, h: Id, k: Id)
    requires Payload(y.row) != Payload(won.row) && Payload(won.row) == Payload(z.row)
    requires ClusterIds(won) == [h] && ClusterIds(z) == [k] && h != k && IsDerived(h)
    ensures |Settle(c, [y] + [won, z])| == 2
  {
    hide *;
    var s := [y] + [won, z];
    SettleIs(c, s);
    OneAndTwo(y, won, z);
    PairFolded(s, won, z, h, k);
    AssignSize(c, Logical(s, Contents(s)), {}, InitialTaken(s));
  }

  lemma {:induction false} LookalikesAgain(c: Codec, won: Row, y: Row, z: Row, n: Id, k: Id, h: Id)
    requires RowId(y) == Some(n) && RowId(won) == Some(h) && RowId(z) == Some(k) && IdText(n) != IdText(k)
    requires Payload(won) == Payload(z) && Payload(y) != Payload(won) && IsDerived(h) && !IsDerived(n) && !IsDerived(k)
    requires OrderLe(c, y, won)
    ensures |Merged(c, [], [y, won, z], [y, z])| == 2
  {
    DerivedTextApart(n, k, h, y, won, z);
    CollisionEntry(y, n);
    CollisionEntry(won, h);
    CollisionEntry(z, k);
    hide *;
    LookalikesReordered(c, y, won, z);
    MergedIs(c, [], [y, won, z], [y, z]);
    LookalikesSettled(c, Newcomer(y), Newcomer(won), Newcomer(z), h, k);
  }

  lemma {:induction false} DerivedTextApart(n: Id, k: Id, h: Id, y: Row, won: Row, z: Row)
    requires RowId(y) == Some(n) && RowId(won) == Some(h) && RowId(z) == Some(k) && IdText(n) != IdText(k)
    requires IsDerived(h) && !IsDerived(n) && !IsDerived(k)
    ensures !SameRow(y, won) && !SameRow(y, z) && !SameRow(won, z) && h != k
    ensures RowId(y).Some? && RowId(won).Some? && RowId(z).Some?
  {
  }

  /** One content under a disputed and under an undisputed id: the first merge leaves both rows and renumbers one, and
      its derived id makes the next merge fold them, so merging a side in again takes a row away. */
  lemma {:induction false} LookalikesFoldLater(c: Codec, x: Row, y: Row, z: Row, n: Id, k: Id)
    requires Lookalikes(x, y, z, n, k) && !OrderLe(c, x, y) && Numeric(n) && !IsDerived(n) && !IsDerived(k)
    ensures var m := Merged(c, [], [x], [y, z]);
      |m| == 3 && |Merged(c, [], m, [y, z])| == 2
  {
    LookalikesFacts(x, y, z, n, k);
    OrderLeTotal(c, x, y);
    var h := LookalikesMerged(c, x, y, z, n, k);
    var won := x.(id := Some(h));
    StampOfPayload(x);
    StampOfPayload(won);
    assert Payload(won) == Payload(x) && OrderLe(c, y, won);
    hide *;
    LookalikesAgain(c, won, y, z, n, k, h);
  }

  // ---------------------------------------------------------------- a collision and an older version

  /** Row `late` in its latest version and in an older one, and a row that collides with it on the id. */
  ghost predicate Outdated(c: Codec, a: Row, old1: Row, late: Row, n: Id) {
    && RowId(a) == RowId(old1) == RowId(late) == Some(n) && Numeric(n) && !IsDerived(n)
    && SameRow(late, old1) && old1 != late && Wins(c, late, old1)
    && VersionsAgree(late, old1) && VersionsAgree(old1, late)
    && !AgreeOnIdentity(a.fields, old1.fields) && !AgreeOnIdentity(a.fields, late.fields)
  }

  lemma {:induction false} OutdatedFacts(c: Codec, a: Row, old1: Row, late: Row, n: Id)
    requires Outdated(c, a, old1, late, n)
    ensures a.Obj? && old1.Obj? && late.Obj? && MergePair(c, late, old1) == late && SameRow(late, old1)
    ensures RowId(a) == RowId(old1) == RowId(late) == Some(n) && Numeric(n) && !IsDerived(n)
    ensures Payload(a) != Payload(late) && Payload(a) != Payload(old1) && Payload(late) != Payload(old1)
    ensures !SameRow(late, a) && !SameRow(a, late) && !SameRow(a, old1)
    ensures !AgreeOnIdentity(a.fields, late.fields) && !AgreeOnIdentity(late.fields, a.fields) && late != old1
  {
    MergePairIsLater(c, late, old1);
    DifferentContents(a, late);
    DifferentContents(a, old1);
  }

  /** The older version lands on the later one and changes nothing. */
  lemma {:induction false} AbsorbOlder(c: Codec, cl: seq<Cluster>, late: Row, old1: Row, n: Id)
    requires cl != [] && cl[0] == Newcomer(late) && RowId(late) == RowId(old1) == Some(n)
    requires SameRow(late, old1) && late.Obj? && old1.Obj? && late != old1 && MergePair(c, late, old1) == late
    ensures Absorb(c, cl, Arrival(old1, None)) == cl
  {
    assert FindHit(cl, old1) == Some(0);
    hide MergePair, FindHit, SameRow;
    assert NoteRow(c, cl[0], Arrival(old1, None)) == cl[0];
    assert cl[0 := cl[0]] == cl;
  }

  lemma {:induction false} OutdatedBuild(c: Codec, a: Row, old1: Row, late: Row, n: Id)
    requires Outdated(c, a, old1, late, n)
    ensures Build(c, Arrivals([], [late], [a, old1])) == [Newcomer(late), Newcomer(a)]
  {
    OutdatedFacts(c, a, old1, late, n);
    var i, j, k := Arrival(late, None), Arrival(a, None), Arrival(old1, None);
    assert Arrivals([], [late], [a, old1]) == [i, j] + [k];
    hide SameRow, Outdated, MergePair;
    BuildPair(c, i, j);
    BuildSnoc(c, [i, j], k);
    AbsorbOlder(c, [Newcomer(late), Newcomer(a)], late, old1, n);
  }

  lemma {:induction false} OutdatedMerged(c: Codec, a: Row, old1: Row, late: Row, n: Id, lo: Row, hi: Row)
    requires Outdated(c, a, old1, late, n) && Emitted(c, late, a, lo, hi) && hi.Obj?
    ensures Merged(c, [], [late], [a, old1]) == [lo, hi.(id := Some(Resolved(c, n, Payload(hi))))]
  {
    OutdatedFacts(c, a, old1, late, n);
    OutdatedBuild(c, a, old1, late, n);
    NewRow(a);
    NewRow(late);
    OrderEither(c, Newcomer(late), Newcomer(a));
    hide Merged, Build, Ordered, Settle, Outdated, OrderLe, Resolved, Payload;
    MergedIs(c, [], [late], [a, old1]);
    CollisionSettled(c, lo, hi, n);
  }

  /** The later version was emitted first: it kept the id, and the older one still finds it. */
  lemma {:induction false} OutdatedStays(c: Codec, a: Row, old1: Row, late: Row, n: Id, won: Row, h: Id)
    requires Outdated(c, a, old1, late, n) && Outcome(c, n, late, a, won, h)
    ensures Merged(c, [], [late, won], [a, old1]) == [late, won]
  {
    OutdatedFacts(c, a, old1, late, n);
    OutcomeFacts(c, n, late, a, won, h);
    hide *;
    SecondAgain(c, n, late, a, won, h);
    LoserApart(late, won, a, n, h);
    AgainSame(c, late, won, a, old1, n);
    MergedIs(c, [], [late, won], [a]);
    MergedIs(c, [], [late, won], [a, old1]);
  }

  lemma {:induction false} AgainSame(c: Codec, late: Row, won: Row, a: Row, old1: Row, n: Id)
    requires !SameRow(late, won) && !SameRow(late, a) && !SameRow(won, a)
    requires RowId(late) == RowId(old1) == Some(n)
    requires SameRow(late, old1) && late.Obj? && old1.Obj? && late != old1 && MergePair(c, late, old1) == late
    ensures Build(c, Arrivals([], [late, won], [a, old1])) == Build(c, Arrivals([], [late, won], [a]))
  {
    var k := Arrival(old1, None);
    LoserBuild(c, late, won, a);
    assert Arrivals([], [late, won], [a, old1]) == Arrivals([], [late, won], [a]) + [k];
    hide SameRow, MergePair, Absorb;
    BuildSnoc(c, Arrivals([], [late, won], [a]), k);
    AbsorbOlder(c, [Newcomer(late), Newcomer(won), Newcomer(a)], late, old1, n);
  }

  /** The later version was emitted second: it was renumbered, and the older one no longer finds it. */
  lemma {:induction false} OutdatedReturns(c: Codec, a: Row, old1: Row, late: Row, n: Id, won: Row, h: Id)
    requires Outdated(c, a, old1, late, n) && Outcome(c, n, a, late, won, h)
    ensures |Merged(c, [], [a, won], [a, old1])| == 3
  {
    OutdatedFacts(c, a, old1, late, n);
    OutcomeFacts(c, n, a, late, won, h);
    LoserApart(a, won, old1, n, h);
    hide *;
    ReturnBuild(c, a, won, old1);
    NewRow(a);
    NewRow(won);
    NewRow(old1);
    ThreeContents(c, Newcomer(a), Newcomer(won), Newcomer(old1));
    MergedIs(c, [], [a, won], [a, old1]);
  }

  lemma {:induction false} ReturnBuild(c: Codec, a: Row, won: Row, old1: Row)
    requires RowId(a).Some? && !SameRow(a, won) && !SameRow(a, old1) && !SameRow(won, old1)
    ensures Build(c, Arrivals([], [a, won], [a, old1])) == [Newcomer(a), Newcomer(won), Newcomer(old1)]
  {
    var i, j, k := Arrival(a, None), Arrival(won, None), Arrival(old1, None);
    var cl := [Newcomer(a), Newcomer(won)];
    assert Arrivals([], [a, won], [a, old1]) == [i, j] + [i] + [k];
    hide SameRow, Build;
    BuildPair(c, i, j);
    BuildSnoc(c, [i, j], i);
    AbsorbAgain(c, cl, a, 0);
    BuildFresh(c, [i, j] + [i], cl, k);
    assert cl + [Newcomer(old1)] == [Newcomer(a), Newcomer(won), Newcomer(old1)];
  }

  /** Three contents are three rows, whatever their order and ids. */
  lemma {:induction false} ThreeContents(c: Codec, x: Cluster, y: Cluster, z: Cluster)
    requires IsNew(x) && IsNew(y) && IsNew(z)
    requires Payload(x.row) != Payload(y.row) && Payload(x.row) != Payload(z.row) && Payload(y.row) != Payload(z.row)
    ensures |Settle(c, Ordered(c, [x, y, z]))| == 3
  {
    hide *;
    var cl, s := [x, y, z], Ordered(c, [x, y, z]);
    ThreeDistinct(x, y, z);
    NewSorted(c, cl);
    SortPermutes(ContentLe(c), cl);
    MapMultiset(PayloadOf, cl, s);
    PermutationNoDuplicates(MapSeq(PayloadOf, cl), MapSeq(PayloadOf, s));
    ApartEntries(s);
    SettleIs(c, s);
    AssignSize(c, Logical(s, Contents(s)), {}, InitialTaken(s));
  }

  lemma {:induction false} ThreeDistinct(x: Cluster, y: Cluster, z: Cluster)
    requires Payload(x.row) != Payload(y.row) && Payload(x.row) != Payload(z.row) && Payload(y.row) != Payload(z.row)
    ensures NoDuplicates(MapSeq(PayloadOf, [x, y, z]))
  {
    hide Payload;
  }

  /** IDEMPOTENT, exactly, for a collision one of whose rows also comes in an older version: merging the side in again
      changes nothing if and only if the row's later version is emitted first and so keeps the id. Otherwise it is
      renumbered, the older version no longer meets it, and the older content comes back as a third row. */
  lemma {:induction false} OutdatedExactly(c: Codec, a: Row, old1: Row, late: Row, n: Id)
    requires Outdated(c, a, old1, late, n)
    ensures var m := Merged(c, [], [late], [a, old1]);
      && |m| == 2 && (Merged(c, [], m, [a, old1]) == m <==> OrderLe(c, late, a))
      && (!OrderLe(c, late, a) ==> |Merged(c, [], m, [a, old1])| == 3)
  {
    OutdatedFacts(c, a, old1, late, n);
    OrderLeTotal(c, late, a);
    var first := OrderLe(c, late, a);
    var lo, hi := if first then late else a, if first then a else late;
    var h := Resolved(c, n, Payload(hi));
    var won := hi.(id := Some(h));
    OutdatedMerged(c, a, old1, late, n, lo, hi);
    assert Outcome(c, n, lo, hi, won, h);
    if first {
      OutdatedStays(c, a, old1, late, n, won, h);
    } else {
      OutdatedReturns(c, a, old1, late, n, won, h);
    }
  }
}
