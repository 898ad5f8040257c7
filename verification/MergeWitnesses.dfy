/** Boards on which a promise of the merge does not hold, one family for each hypothesis the theorems carry. */
module MergeWitnesses {
  import opened Prelude
  import opened BoardRows
  import opened IdSpace
  import opened MergeSpec
  import opened MergeLossless
  import opened MergeIds
  import opened MergeVersions
  import opened MergeSymmetry
  import opened MergeLimits
  import opened MergeAgain

  // ---------------------------------------------------------------- a lookalike swallowed

  lemma {:induction false} OneContent(ordered: seq<Cluster>, p: Row)
    requires ordered != [] && forall i | 0 <= i < |ordered| :: Payload(ordered[i].row) == p
    ensures Contents(ordered) == [p]
  {
    var keys := Contents(ordered);
    assert ordered[0] in ordered;
    assert p in keys;
    forall i | 0 <= i < |keys| ensures keys[i] == p {
      assert keys[i] in keys;
      var cu :| cu in ordered && Payload(cu.row) == keys[i];
    }
    AllTheSame(keys, p);
  }

  lemma {:induction false} DifferentNumbers(a: Row, b: Row)
    requires NumberedRow(a) && NumberedRow(b) && a.id != b.id
    ensures !SameRow(a, b)
  {
    if RowKey(a) == RowKey(b) {
      NumberTextInjective(a.id.value.n, b.id.value.n);
    }
  }

  lemma {:induction false} BuildLookalikes(c: Codec, a: Row, b: Row, d: Row)
    requires NumberedRow(a) && NumberedRow(b) && NumberedRow(d) && a.id != b.id && a.id != d.id && b.id != d.id
    ensures Build(c, Arrivals([], [a, b], [d])) == [Newcomer(a), Newcomer(b), Newcomer(d)]
  {
    var x, y, z := Arrival(a, None), Arrival(b, None), Arrival(d, None);
    DifferentNumbers(a, b);
    DifferentNumbers(a, d);
    DifferentNumbers(b, d);
    BuildThree(c, x, y, z);
    assert Arrivals([], [a, b], [d]) == [x, y, z];
  }

  // ---------------------------------------------------------------- a base row renumbered

  lemma {:induction false} CollisionContents(cx: Cluster, cy: Cluster, cz: Cluster)
    requires Payload(cx.row) == Payload(cz.row) != Payload(cy.row)
    ensures Contents([cx, cy, cz]) == [Payload(cx.row), Payload(cy.row)]
  {
    hide *;
    var p, q := Payload(cx.row), Payload(cy.row);
    ContentsOfThree(cx, cy, cz);
    DistinctFew(p, q);
    DistinctSnoc([p, q], p);
  }

  lemma {:induction false} ContentsOfThree(x: Cluster, y: Cluster, z: Cluster)
    ensures Contents([x, y, z]) == Distinct([Payload(x.row), Payload(y.row)] + [Payload(z.row)])
  {
    assert MapSeq(PayloadOf, [x, y, z]) == [Payload(x.row), Payload(y.row)] + [Payload(z.row)];
  }

  lemma {:induction false} CollisionGroups(cx: Cluster, cy: Cluster, cz: Cluster)
    requires Payload(cx.row) == Payload(cz.row) != Payload(cy.row)
    ensures Group([cx, cy, cz], Payload(cx.row)) == [cx, cz] && Group([cx, cy, cz], Payload(cy.row)) == [cy]
  {
    FilterThree(PaysAs(Payload(cx.row)), cx, cy, cz);
    FilterThree(PaysAs(Payload(cy.row)), cx, cy, cz);
    assert [cx, cy, cz] == [] + [cx] + [cy] + [cz];
    assert [] + [cx] + [] + [cz] == [cx, cz] && [] + [] + [cy] + [] == [cy];
  }

  function Kept(keep: Cluster -> bool, x: Cluster): seq<Cluster> {
    if keep(x) then [x] else []
  }

  lemma {:induction false} KeptSnoc(keep: Cluster -> bool, s: seq<Cluster>, x: Cluster)
    ensures Filter(keep, s + [x]) == Filter(keep, s) + Kept(keep, x)
  {
    FilterSnoc(keep, s, x);
    if !keep(x) {
      assert Filter(keep, s) + [] == Filter(keep, s);
    }
  }

  lemma {:induction false} FilterThree(keep: Cluster -> bool, x: Cluster, y: Cluster, z: Cluster)
    ensures Filter(keep, [] + [x] + [y] + [z]) == Filter(keep, []) + Kept(keep, x) + Kept(keep, y) + Kept(keep, z)
  {
    KeptSnoc(keep, [], x);
    KeptSnoc(keep, [] + [x], y);
    KeptSnoc(keep, [] + [x] + [y], z);
  }

  lemma {:induction false} OnlyClaim(cx: Cluster, cy: Cluster, cz: Cluster, m: Id)
    requires Payload(cx.row) == Payload(cz.row) && m !in ClusterIds(cy)
    ensures !Contested([cx, cy, cz], m)
  {
    assert forall cu | cu in [cx, cy, cz] :: cu == cx || cu == cy || cu == cz;
  }

  lemma {:induction false} CollisionEntries(cx: Cluster, cy: Cluster, cz: Cluster, m: Id, n: Id)
    requires Payload(cx.row) == Payload(cz.row) != Payload(cy.row)
    requires ClusterIds(cx) == [m] && ClusterIds(cy) == [n] && ClusterIds(cz) == [n] && m != n
    requires !IsDerived(m) && !IsDerived(n)
    ensures Logical([cx, cy, cz], Contents([cx, cy, cz])) == [Single(cx), Single(cz)] + [Single(cy)]
  {
    var ordered, p, q := [cx, cy, cz], Payload(cx.row), Payload(cy.row);
    CollisionContents(cx, cy, cz);
    CollisionGroups(cx, cy, cz);
    OnlyClaim(cx, cy, cz, m);
    PairUndisputed(ordered, cx, cz, m, n);
    SingleEntry(ordered, cy);
    TwoKeys(ordered, p, q, [Single(cx), Single(cz)], [Single(cy)]);
  }

  lemma {:induction false} PairUndisputed(ordered: seq<Cluster>, cx: Cluster, cz: Cluster, m: Id, n: Id)
    requires ClusterIds(cx) == [m] && ClusterIds(cz) == [n]
    requires !Contested(ordered, m) && !IsDerived(m) && !IsDerived(n)
    ensures EntriesOf(ordered, [cx, cz]) == [Single(cx), Single(cz)]
  {
    var g := [cx, cz];
    assert g[0] in g && m in ClusterIds(g[0]);
    forall cu, id | cu in g && id in ClusterIds(cu) ensures !IsDerived(id) {
      assert cu == cx || cu == cz;
      assert id == m || id == n;
    }
    UndisputedApart(ordered, g, m);
    TwoSingles(cx, cz);
  }

  lemma {:induction false} TwoKeys(ordered: seq<Cluster>, p: Row, q: Row, d: seq<Entry>, e: seq<Entry>)
    requires EntriesOf(ordered, Group(ordered, p)) == d && EntriesOf(ordered, Group(ordered, q)) == e
    ensures Logical(ordered, [p, q]) == d + e
  {
    LogicalOne(ordered, p);
    LogicalSnoc(ordered, [p], q);
    assert [p] + [q] == [p, q];
  }

  /** Rows are emitted content by content, so an appended row that shows the content of an early base row is
      numbered before a later base row, and can take the id that row has held since the base. */
  lemma {:induction false} BaseRowRenumbered(c: Codec, x: Row, y: Row, z: Row)
    requires NumberedRow(x) && NumberedRow(y) && NumberedRow(z) && x.id != y.id && y.id == z.id
    requires Payload(x) == Payload(z) && !AgreeOnIdentity(y.fields, z.fields)
    requires !IsDerived(x.id.value) && !IsDerived(y.id.value)
    ensures y !in Merged(c, [x, y], [z], [])
    ensures exists out | out in Merged(c, [x, y], [z], []) ::
        Payload(out) == Payload(y) && RowId(out).Some? && IsDerived(out.id.value)
  {
    CollisionOrder(c, x, y, z);
    CollisionSettles(c, x, y, z);
  }

  lemma {:induction false} CollisionSettles(c: Codec, x: Row, y: Row, z: Row)
    requires NumberedRow(x) && NumberedRow(y) && NumberedRow(z) && x.id != y.id && y.id == z.id
    requires Payload(x) == Payload(z) && !AgreeOnIdentity(y.fields, z.fields)
    requires !IsDerived(x.id.value) && !IsDerived(y.id.value)
    ensures var rows := Settle(c, [OfBase(x, 0), OfBase(y, 1), Newcomer(z)]);
      && y !in rows
      && exists out :: out in rows && Payload(out) == Payload(y) && RowId(out).Some? && IsDerived(out.id.value)
  {
    var cx, cy, cz := OfBase(x, 0), OfBase(y, 1), Newcomer(z);
    CollisionLogical(x, y, z);
    OfBaseIds(x, 0);
    OfBaseIds(y, 1);
    NewcomerIds(z);
    LateBase(c, Single(cx), Single(cz), Single(cy), InitialTaken([cx, cy, cz]));
    PairAndOne(Single(cx), Single(cz), Single(cy));
    LastOfThree(Settle(c, [cx, cy, cz]));
  }

  lemma {:induction false} PairAndOne(d: Entry, e: Entry, f: Entry)
    ensures [d, e] + [f] == [d, e, f]
  {
  }

  lemma {:induction false} LastOfThree(rows: seq<Row>)
    ensures |rows| == 3 ==> rows[2] in rows
  {
  }

  lemma {:induction false} CollisionLogical(x: Row, y: Row, z: Row)
    requires NumberedRow(x) && NumberedRow(y) && NumberedRow(z) && x.id != y.id && y.id == z.id
    requires Payload(x) == Payload(z) && !AgreeOnIdentity(y.fields, z.fields)
    requires !IsDerived(x.id.value) && !IsDerived(y.id.value)
    ensures Payload(y) != Payload(z)
    ensures var cx, cy, cz := OfBase(x, 0), OfBase(y, 1), Newcomer(z);
      Logical([cx, cy, cz], Contents([cx, cy, cz])) == [Single(cx), Single(cz)] + [Single(cy)]
  {
    DifferentContents(y, z);
    OfBaseIds(x, 0);
    OfBaseIds(y, 1);
    NewcomerIds(z);
    CollisionEntries(OfBase(x, 0), OfBase(y, 1), Newcomer(z), x.id.value, y.id.value);
  }

  lemma {:induction false} CollisionOrder(c: Codec, x: Row, y: Row, z: Row)
    requires NumberedRow(x) && NumberedRow(y) && NumberedRow(z) && x.id != y.id && y.id == z.id
    requires !AgreeOnIdentity(y.fields, z.fields)
    ensures Ordered(c, Build(c, Arrivals([x, y], [z], []))) == [OfBase(x, 0), OfBase(y, 1), Newcomer(z)]
  {
    var i, j, k := Arrival(x, Some(0)), Arrival(y, Some(1)), Arrival(z, None);
    DifferentNumbers(x, y);
    DifferentNumbers(x, z);
    BuildThree(c, i, j, k);
    assert Arrivals([x, y], [z], []) == [i, j, k];
    BaseThenNew(c, OfBase(x, 0), OfBase(y, 1), Newcomer(z));
  }

  lemma {:induction false} BaseThenNew(c: Codec, cx: Cluster, cy: Cluster, cz: Cluster)
    requires cx.basePos == Some(0) && cy.basePos == Some(1) && IsNew(cz)
    ensures Ordered(c, [cx, cy, cz]) == [cx, cy, cz]
  {
    OrderedSplit(c, [cx, cy], [cz]);
    SortedStays(BasePosLe, [cx, cy]);
    SortedStays(ContentLe(c), [cz]);
    assert [cx, cy] + [cz] == [cx, cy, cz];
  }

  lemma {:induction false} LateBase(c: Codec, d: Entry, e: Entry, f: Entry, taken: set<Id>)
    requires NumberedRow(d.row) && NumberedRow(e.row) && NumberedRow(f.row) && d.row.id != e.row.id
    requires e.row.id == f.row.id
    requires d.baseId == d.row.id && e.baseId.None? && f.baseId == f.row.id
    requires d.ids == [d.row.id.value] && e.ids == [e.row.id.value] && f.ids == [f.row.id.value]
    requires !IsDerived(f.row.id.value)
    requires Payload(e.row) != Payload(f.row)
    ensures var rows := Assign(c, [d, e, f], {}, taken);
      && |rows| == 3 && f.row !in rows
      && Payload(rows[2]) == Payload(f.row) && RowId(rows[2]).Some? && IsDerived(rows[2].id.value)
  {
    hide *;
    NumbersDiffer(d, e, f);
    KeepsNumber(c, d, {}, taken);
    AssignFirst(c, d, [e, f], {}, taken, RowId(d.row));
    var c1, t1 := Added({}, RowId(d.row)), Added(taken, RowId(d.row));
    KeepsNumber(c, e, c1, t1);
    AssignFirst(c, e, [f], c1, t1, RowId(e.row));
    var c2, t2 := Added(c1, RowId(e.row)), Added(t1, RowId(e.row));
    var id := LosesNumber(c, f, c2, t2);
    AssignFirst(c, f, [], c2, t2, id);
    NothingLeft(c, Added(c2, id), Added(t2, id));
    assert [d] + [e, f] == [d, e, f] && [e] + [f] == [e, f] && [f] + [] == [f];
  }

  lemma {:induction false} NumbersDiffer(d: Entry, e: Entry, f: Entry)
    requires NumberedRow(d.row) && NumberedRow(e.row) && NumberedRow(f.row) && d.row.id != e.row.id
    requires e.row.id == f.row.id && Payload(e.row) != Payload(f.row)
    ensures RowId(d.row) == d.row.id && RowId(e.row) == e.row.id == RowId(f.row) && RowId(e.row).Some?
    ensures RowId(d.row).Some?
    ensures RowId(e.row).value !in Added({}, RowId(d.row))
    ensures RowId(f.row).value in Added(Added({}, RowId(d.row)), RowId(e.row))
    ensures d.row != f.row && e.row != f.row
  {
  }

  lemma {:induction false} KeepsNumber(c: Codec, e: Entry, claimed: set<Id>, taken: set<Id>)
    requires NumberedRow(e.row) && e.ids == [e.row.id.value] && (e.baseId.None? || e.baseId == e.row.id)
    requires e.row.id.value !in claimed
    ensures Choice(c, e, claimed, taken) == RowId(e.row) && WithId(e.row, RowId(e.row)) == e.row
  {
    OneCandidate(e, claimed, e.row.id.value);
  }

  lemma {:induction false} LosesNumber(c: Codec, f: Entry, claimed: set<Id>, taken: set<Id>) returns (id: Option<Id>)
    requires NumberedRow(f.row) && f.ids == [f.row.id.value] && f.baseId == f.row.id
    requires f.row.id.value in claimed && !IsDerived(f.row.id.value)
    ensures id == Choice(c, f, claimed, taken) && id.Some? && IsDerived(id.value) && WithId(f.row, id) != f.row
    ensures Payload(WithId(f.row, id)) == Payload(f.row) && RowId(WithId(f.row, id)) == id
    ensures RowId(WithId(f.row, id)).Some? ==> WithId(f.row, id).id == id
  {
    id := Choice(c, f, claimed, taken);
    OneCandidate(f, claimed, f.row.id.value);
    FreshIsDerived(c, Like(f), c.digest(Payload(f.row)), taken);
  }

  // ---------------------------------------------------------------- the high-water mark

  /** The id a renumbered number gets lies in the band, so it is above a disputed id below the band and below one that
      lies past it. */
  lemma {:induction false} HighWaterMark(c: Codec, a: Row, b: Row, n: int)
    requires Disputed(a, b, Num(n))
    ensures var m := Merged(c, [], [a], [b]);
      && |m| == 2 && RowId(m[0]) == Some(Num(n)) && RowId(m[1]).Some? && m[1].id.value.Num?
      && (n < DERIVED_ID_BASE ==> m[1].id.value.n > n)
      && (n >= DERIVED_ID_BASE + DERIVED_ID_SPAN ==> m[1].id.value.n < n)
  {
    var lo, hi, won, h := IsOutcome(c, a, b, Num(n));
    assert h == Num(DerivedId(c, SeedText(c.digest(Payload(hi)), "row"), {Num(n)}));
  }

  // ---------------------------------------------------------------- a fold undone

  lemma {:induction false} ContentOne(s: seq<Cluster>, p: Row)
    requires s != [] && forall x | x in s :: Payload(x.row) == p
    ensures Logical(s, Contents(s)) == EntriesOf(s, s)
  {
    forall i | 0 <= i < |s| ensures Payload(s[i].row) == p {
      assert s[i] in s;
    }
    FilterAll(PaysAs(p), s);
    OneContent(s, p);
    LogicalOne(s, p);
  }

  /** Clusters of one content with a derived id among them leave the row under their best id. */
  lemma {:induction false} FoldsOnto(c: Codec, s: seq<Cluster>, row: Row, z: Id)
    requires |s| > 1 && s[0].baseId.None? && RowId(row) == Some(z)
    requires forall x | x in s :: Payload(x.row) == Payload(row)
    requires AnyDerived(GroupIds(s)) && z in GroupIds(s) && forall x | x in GroupIds(s) :: IdLe(z, x)
    ensures Settle(c, s) == [row]
  {
    hide *;
    assert s[0] in s;
    ContentOne(s, Payload(row));
    SettleIs(c, s);
    FoldedAs(s, s[0].row);
    BestIs(GroupIds(s), z);
    UnderOther(s[0].row, row, z);
    BestTaken(c, Entry(s[0].row, GroupIds(s), None, |s|), InitialTaken(s));
  }

  lemma {:induction false} FoldedAs(s: seq<Cluster>, row: Row)
    requires |s| > 1 && s[0].row == row && s[0].baseId.None? && AnyDerived(GroupIds(s))
    ensures EntriesOf(s, s) == [Entry(row, GroupIds(s), None, |s|)] && GroupIds(s) != []
  {
    hide GroupIds;
  }

  lemma {:induction false} BestIs(ids: seq<Id>, z: Id)
    requires z in ids && forall x | x in ids :: IdLe(z, x)
    ensures FirstUnclaimed(SortBy(IdLe, ids), {}) == Some(z)
  {
    IdLeTotalOrder();
    hide IdLe, SortBy, FirstUnclaimed;
    BestFree(ids, {});
  }

  lemma {:induction false} UnderOther(first: Row, row: Row, z: Id)
    requires RowId(row) == Some(z) && Payload(first) == Payload(row)
    ensures first.Obj? && first.(id := Some(z)) == row
  {
  }

  /** New clusters of one content, one of them under the best id and one under a derived one. */
  ghost predicate BestIn(s: seq<Cluster>, z: Row) {
    && |s| > 1 && Newcomer(z) in s && RowId(z).Some? && (exists x :: x in s && Renumbered(x.row))
    && forall x | x in s :: x == Newcomer(x.row) && Payload(x.row) == Payload(z)
         && RowId(x.row).Some? && IdLe(RowId(z).value, RowId(x.row).value)
  }

  lemma {:induction false} MemberId(s: seq<Cluster>, z: Row, x: Cluster)
    requires BestIn(s, z) && x in s
    ensures ClusterIds(x) == [RowId(x.row).value] && IdLe(RowId(z).value, RowId(x.row).value)
    ensures RowId(x.row).value in GroupIds(s)
  {
    NewcomerListed(x.row);
    GroupIdsFrom(s, RowId(x.row).value);
  }

  lemma {:induction false} SomeDerived(s: seq<Cluster>, z: Row)
    requires BestIn(s, z)
    ensures RowId(z).Some? && AnyDerived(GroupIds(s)) && RowId(z).value in GroupIds(s)
  {
    var y :| y in s && Renumbered(y.row);
    hide GroupIds, IdLe, ClusterIds;
    MemberId(s, z, y);
    MemberId(s, z, Newcomer(z));
  }

  lemma {:induction false} BestIds(s: seq<Cluster>, z: Row)
    requires BestIn(s, z)
    ensures AnyDerived(GroupIds(s)) && RowId(z).value in GroupIds(s)
    ensures forall x | x in GroupIds(s) :: IdLe(RowId(z).value, x)
  {
    hide *;
    SomeDerived(s, z);
    forall x | x in GroupIds(s) ensures IdLe(RowId(z).value, x) {
      GroupIdsFrom(s, x);
      var cu :| cu in s && x in ClusterIds(cu);
      MemberId(s, z, cu);
    }
  }

  lemma {:induction false} BestInFolds(c: Codec, s: seq<Cluster>, z: Row)
    requires BestIn(s, z)
    ensures Settle(c, s) == [z]
  {
    BestIds(s, z);
    hide IdLe, GroupIds, AnyDerived;
    FoldsOnto(c, s, z, RowId(z).value);
  }

  // ---------------------------------------------------------------- which id a fold keeps

  /** Which of two ids a fold prefers: a writer's before one a merge invented, and between two of a kind the lesser
      number, a number before a text, the lesser text. */
  ghost predicate Preferred(x: Id, y: Id) {
    || (!IsDerived(x) && IsDerived(y))
    || (IsDerived(x) == IsDerived(y) && match x
          case Num(m) => (y.Num? ==> m <= y.n)
          case Str(s) => y.Str? && StrLe(s, y.s))
  }

  lemma {:induction false} BestIsPreferred(s: seq<Cluster>, z: Row)
    requires |s| > 1 && Newcomer(z) in s && RowId(z).Some? && exists x :: x in s && Renumbered(x.row)
    requires forall x | x in s :: x == Newcomer(x.row) && Payload(x.row) == Payload(z) && RowId(x.row).Some?
    requires forall x | x in s :: Preferred(RowId(z).value, RowId(x.row).value)
    ensures BestIn(s, z)
  {
    hide IsDerived, StrLe, Payload, Renumbered;
  }

  /** WHICH ID A FOLD KEEPS: two rows of one content, one of them renumbered, become the one whose id is preferred,
      whichever side it comes from. */
  lemma {:induction false} FoldKeepsPreferred(c: Codec, a: Row, b: Row)
    requires Lookalike(a, b) && RowId(a).Some? && RowId(b).Some? && (Renumbered(a) || Renumbered(b))
    requires Preferred(RowId(a).value, RowId(b).value)
    ensures Merged(c, [], [a], [b]) == Merged(c, [], [b], [a]) == [a]
  {
    PreferredPair(a, b);
    MergeLimits.LookalikesOrdered(c, a, b);
    hide *;
    FoldsCommute(c, a, b);
    BestInFolds(c, [Newcomer(a), Newcomer(b)], a);
    MergedIs(c, [], [a], [b]);
  }

  lemma {:induction false} PreferredPair(a: Row, b: Row)
    requires Lookalike(a, b) && RowId(a).Some? && RowId(b).Some? && (Renumbered(a) || Renumbered(b))
    requires Preferred(RowId(a).value, RowId(b).value)
    ensures BestIn([Newcomer(a), Newcomer(b)], a)
  {
    hide *;
    var s := [Newcomer(a), Newcomer(b)];
    LookalikeFacts(a, b);
    NewRow(a);
    NewRow(b);
    OwnPreferred(RowId(a).value);
    assert s[0] in s && s[1] in s;
    PairPayload(a, b);
    BestIsPreferred(s, a);
  }

  lemma {:induction false} PairPayload(a: Row, b: Row)
    requires Lookalike(a, b)
    ensures Payload(a) == Payload(b)
  {
  }

  lemma {:induction false} OwnPreferred(x: Id)
    ensures Preferred(x, x)
  {
    if x.Str? {
      StrLeTotal(x.s, x.s);
    }
  }

  /** Two rows under undisputed writer ids stay two rows, until a third tree brings the same content under a derived id:
      then all three become one, under the lesser of the two, and an undisputed id disappears from the board. */
  lemma {:induction false} LookalikeSwallowed(c: Codec, a: Row, b: Row, d: Row)
    requires NumberedRow(a) && NumberedRow(b) && NumberedRow(d)
    requires Payload(a) == Payload(b) == Payload(d) && a.id != b.id
    requires !IsDerived(a.id.value) && !IsDerived(b.id.value) && IsDerived(d.id.value)
    ensures Merged(c, [], [a], [b]) == [a, b]
    ensures Merged(c, [], [a, b], [d]) == [if a.id.value.n < b.id.value.n then a else b]
  {
    DifferentNumbers(a, b);
    LookalikesStayApart(c, a, b);
    var z := if a.id.value.n < b.id.value.n then a else b;
    SwallowedBest(a, b, d, z);
    SwallowedBuild(c, a, b, d);
    hide *;
    BestInFolds(c, [Newcomer(a), Newcomer(b), Newcomer(d)], z);
    MergedIs(c, [], [a, b], [d]);
  }

  lemma {:induction false} SwallowedBuild(c: Codec, a: Row, b: Row, d: Row)
    requires NumberedRow(a) && NumberedRow(b) && NumberedRow(d) && a.id != b.id && a.id != d.id && b.id != d.id
    requires Payload(a) == Payload(b) == Payload(d)
    ensures Ordered(c, Build(c, Arrivals([], [a, b], [d]))) == [Newcomer(a), Newcomer(b), Newcomer(d)]
  {
    hide *;
    BuildLookalikes(c, a, b, d);
    SameContentLe(c, a, b);
    SameContentLe(c, b, d);
    NewRow(a);
    NewRow(b);
    NewRow(d);
    ThreeInOrder(c, Newcomer(a), Newcomer(b), Newcomer(d));
  }

  lemma {:induction false} SwallowedBest(a: Row, b: Row, d: Row, z: Row)
    requires NumberedRow(a) && NumberedRow(b) && NumberedRow(d) && Payload(a) == Payload(b) == Payload(d)
    requires !IsDerived(a.id.value) && !IsDerived(b.id.value) && IsDerived(d.id.value)
    requires (z == a || z == b) && z.id.value.n <= a.id.value.n && z.id.value.n <= b.id.value.n
    ensures BestIn([Newcomer(a), Newcomer(b), Newcomer(d)], z)
  {
    hide *;
    var s := [Newcomer(a), Newcomer(b), Newcomer(d)];
    PreferredNumber(z, a);
    PreferredNumber(z, b);
    PreferredNumber(z, d);
    assert s[0] in s && s[1] in s && s[2] in s;
    BestIsPreferred(s, z);
  }

  lemma {:induction false} PreferredNumber(z: Row, x: Row)
    requires NumberedRow(z) && NumberedRow(x) && !IsDerived(z.id.value)
    ensures RowId(z).Some? && RowId(x).Some? && (Renumbered(x) <==> IsDerived(x.id.value)) && Newcomer(x).row == x
    ensures z.id.value.n <= x.id.value.n || IsDerived(x.id.value) ==> Preferred(RowId(z).value, RowId(x).value)
  {
    hide IsDerived;
  }

  /** What a fold needs to be safe, or seems to: coherent versions, one row an id, and every tie folded. */
  ghost predicate Orderly(c: Codec, ours: seq<Row>, theirs: seq<Row>) {
    && Coherent([] + ours + theirs) && OneRowPerId([] + ours + theirs)
    && TiesFold(Ordered(c, Build(c, Arrivals([], ours, theirs))))
  }

  lemma {:induction false} BestInTies(s: seq<Cluster>, z: Row)
    requires BestIn(s, z)
    ensures TiesFold(s)
  {
    hide *;
    BestIds(s, z);
    BestInShows(s, z);
    FoldingTies(s, Payload(z));
  }

  lemma {:induction false} BestInShows(s: seq<Cluster>, z: Row)
    requires BestIn(s, z)
    ensures |s| > 1 && forall i | 0 <= i < |s| :: Payload(s[i].row) == Payload(z)
  {
    hide Payload, IdLe;
    assert forall i | 0 <= i < |s| :: s[i] in s;
  }

  lemma {:induction false} FoldingTies(s: seq<Cluster>, p: Row)
    requires |s| > 1 && AnyDerived(GroupIds(s)) && forall i | 0 <= i < |s| :: Payload(s[i].row) == p
    ensures TiesFold(s)
  {
    FilterAll(PaysAs(p), s);
    OneContent(s, p);
    hide AnyDerived, AllContested, GroupIds, Payload;
    assert Collapses(s, Group(s, p));
    assert forall q | q in Contents(s) :: q == p;
  }

  ghost predicate DerivedLookalike(z: Row, y: Row) {
    Lookalike(z, y) && RowId(z).Some? && !Renumbered(z) && Renumbered(y)
  }

  lemma {:induction false} TwoBestIn(z: Row, y: Row)
    requires DerivedLookalike(z, y)
    ensures BestIn([Newcomer(z), Newcomer(y)], z)
  {
    var s := [Newcomer(z), Newcomer(y)];
    IdLeTotalOrder();
    assert IdLe(RowId(z).value, RowId(y).value);
    hide IdLe, IsDerived;
    assert s[0] in s && s[1] in s;
  }

  /** A row folded away comes back, on an orderly board: the fold took the latest version of the derived row with it,
      so the outdated version on the other side stands alone when that side is merged in again. */
  lemma {:induction false} FoldedRowReturns(c: Codec, z: Row, y: Row, outdated: Row)
    requires DerivedLookalike(z, y) && RowId(outdated) == RowId(y) && SameRow(y, outdated) && outdated != y
    requires VersionsAgree(y, outdated) && VersionsAgree(outdated, y) && Wins(c, y, outdated)
    ensures var m := Merged(c, [], [z, y], [outdated]);
      Orderly(c, [z, y], [outdated]) && m == [z] && |Merged(c, [], m, [outdated])| == 2
  {
    ReturnsFacts(c, z, y, outdated);
    hide *;
    ReturnsBuild(c, z, y, outdated);
    NewRow(z);
    NewRow(y);
    SameContentLe(c, z, y);
    OrderTwo(c, Newcomer(z), Newcomer(y));
    MergedIs(c, [], [z, y], [outdated]);
    TwoBestIn(z, y);
    BestInFolds(c, [Newcomer(z), Newcomer(y)], z);
    BestInTies([Newcomer(z), Newcomer(y)], z);
    ReturnsCoherent(z, y, outdated);
    IsOrderly(c, [z, y], [outdated]);
    BuildTwo(c, z, outdated);
    MergedIs(c, [], [z], [outdated]);
    NewRow(outdated);
    TwoContents(c, Newcomer(z), Newcomer(outdated));
  }

  lemma {:induction false} ReturnsFacts(c: Codec, z: Row, y: Row, outdated: Row)
    requires DerivedLookalike(z, y) && RowId(outdated) == RowId(y) && SameRow(y, outdated) && outdated != y
    requires VersionsAgree(y, outdated) && VersionsAgree(outdated, y) && Wins(c, y, outdated)
    ensures !SameRow(z, y) && !SameRow(z, outdated) && Payload(z) == Payload(y) && Payload(z) != Payload(outdated)
    ensures y.Obj? && outdated.Obj? && y.id.Some? && MergePair(c, y, outdated) == y
  {
    MergePairIsLater(c, y, outdated);
  }

  lemma {:induction false} ReturnsCoherent(z: Row, y: Row, outdated: Row)
    requires DerivedLookalike(z, y) && RowId(outdated) == RowId(y) && SameRow(y, outdated)
    requires VersionsAgree(y, outdated) && VersionsAgree(outdated, y)
    ensures Coherent([] + [z, y] + [outdated]) && OneRowPerId([] + [z, y] + [outdated])
  {
    hide *;
    KeysOfVersions(z, y, outdated);
    VersionsCoherent([] + [z, y] + [outdated], z, y, outdated);
  }

  lemma {:induction false} VersionsCoherent(rows: seq<Row>, z: Row, y: Row, outdated: Row)
    requires rows == [] + [z, y] + [outdated] && RowKey(y) != RowKey(z) && RowKey(outdated) != RowKey(z)
    requires !SameRow(z, y) && !SameRow(y, z) && !SameRow(z, outdated) && !SameRow(outdated, z)
    requires SameRow(y, outdated) && SameRow(outdated, y) && VersionsAgree(y, outdated) && VersionsAgree(outdated, y)
    requires forall x: Row :: SameRow(x, x) && VersionsAgree(x, x)
    ensures Coherent(rows) && OneRowPerId(rows)
  {
    hide RowKey, SameRow, VersionsAgree;
    assert forall x | x in rows :: x == z || x == y || x == outdated;
  }

  lemma {:induction false} KeysOfVersions(z: Row, y: Row, outdated: Row)
    requires DerivedLookalike(z, y) && RowId(outdated) == RowId(y) && SameRow(y, outdated)
    ensures RowKey(outdated) == RowKey(y) != RowKey(z) && SameRow(outdated, y)
    ensures !SameRow(z, y) && !SameRow(y, z) && !SameRow(z, outdated) && !SameRow(outdated, z)
    ensures forall x: Row :: SameRow(x, x) && VersionsAgree(x, x)
  {
  }

  lemma {:induction false} IsOrderly(c: Codec, ours: seq<Row>, theirs: seq<Row>)
    requires Coherent([] + ours + theirs) && OneRowPerId([] + ours + theirs)
    requires TiesFold(Ordered(c, Build(c, Arrivals([], ours, theirs))))
    ensures Orderly(c, ours, theirs)
  {
  }

  lemma {:induction false} ReturnsBuild(c: Codec, z: Row, y: Row, outdated: Row)
    requires !SameRow(z, y) && !SameRow(z, outdated) && SameRow(y, outdated) && outdated != y
    requires y.Obj? && outdated.Obj? && y.id.Some? && RowId(outdated) == RowId(y) && MergePair(c, y, outdated) == y
    ensures Build(c, Arrivals([], [z, y], [outdated])) == [Newcomer(z), Newcomer(y)]
  {
    var i, j, k := Arrival(z, None), Arrival(y, None), Arrival(outdated, None);
    var cl := [Newcomer(z), Newcomer(y)];
    assert Arrivals([], [z, y], [outdated]) == [i, j] + [k];
    hide SameRow, MergePair;
    BuildPair(c, i, j);
    BuildSnoc(c, [i, j], k);
    assert cl[0].row == z && cl[1].row == y;
    assert FindHit(cl, outdated) == Some(1);
    assert NoteRow(c, cl[1], k) == cl[1];
    assert cl[1 := cl[1]] == cl;
  }

  lemma {:induction false} TwoContents(c: Codec, x: Cluster, y: Cluster)
    requires IsNew(x) && IsNew(y) && Payload(x.row) != Payload(y.row)
    ensures |Settle(c, Ordered(c, [x, y]))| == 2
  {
    hide *;
    OrderEither(c, x, y);
    TwoApartEntries(x, y);
    TwoApartEntries(y, x);
    var s := Ordered(c, [x, y]);
    SettleIs(c, s);
    AssignSize(c, Logical(s, Contents(s)), {}, InitialTaken(s));
  }

  lemma {:induction false} ThreeBestIn(z: Row, y: Row, w: Row)
    requires DerivedLookalike(z, y) && Lookalike(z, w) && RowId(w).Some? && IdLe(z.id.value, w.id.value)
    ensures BestIn([Newcomer(z), Newcomer(y), Newcomer(w)], z)
  {
    var s := [Newcomer(z), Newcomer(y), Newcomer(w)];
    IdLeTotalOrder();
    assert IdLe(RowId(z).value, RowId(y).value);
    hide IdLe, IsDerived;
    assert s[0] in s && s[1] in s && s[2] in s;
  }

  lemma {:induction false} UndoneCoherent(z: Row, y: Row, w: Row)
    requires Lookalike(z, y) && Lookalike(z, w) && Lookalike(w, y)
    ensures Coherent([] + [z, y] + [w]) && OneRowPerId([] + [z, y] + [w])
  {
    KeysOfLookalikes(z, y);
    KeysOfLookalikes(z, w);
    KeysOfLookalikes(w, y);
    hide RowKey, SameRow, VersionsAgree, Lookalike;
    assert [] + [z, y] + [w] == [z, y, w];
  }

  lemma {:induction false} KeysOfLookalikes(a: Row, b: Row)
    requires Lookalike(a, b)
    ensures RowKey(a) != RowKey(b) && !SameRow(a, b) && !SameRow(b, a)
    ensures forall x: Row :: SameRow(x, x) && VersionsAgree(x, x)
  {
  }

  /** On an orderly board a fold takes the derived id away, and what is left of the content no longer folds: merging the
      other side in again adds the row it had folded. */
  lemma {:induction false} FoldUndone(c: Codec, z: Row, y: Row, w: Row)
    requires DerivedLookalike(z, y) && DerivedLookalike(w, y) && Lookalike(z, w) && IdLe(z.id.value, w.id.value)
    ensures var m := Merged(c, [], [z, y], [w]);
      Orderly(c, [z, y], [w]) && m == [z] && Merged(c, [], m, [w]) == [z, w]
  {
    LookalikeFacts(z, y);
    LookalikeFacts(z, w);
    SameRowSwaps(w, y);
    LookalikeFacts(w, y);
    LookalikesStayApart(c, z, w);
    UndoneShown(z, y, w);
    hide *;
    LoserBuild(c, z, y, w);
    NewRow(z);
    NewRow(y);
    NewRow(w);
    SameContentLe(c, z, y);
    SameContentLe(c, y, w);
    ThreeInOrder(c, Newcomer(z), Newcomer(y), Newcomer(w));
    MergedIs(c, [], [z, y], [w]);
    ThreeBestIn(z, y, w);
    BestInFolds(c, [Newcomer(z), Newcomer(y), Newcomer(w)], z);
    BestInTies([Newcomer(z), Newcomer(y), Newcomer(w)], z);
    UndoneCoherent(z, y, w);
    IsOrderly(c, [z, y], [w]);
  }

  lemma {:induction false} UndoneShown(z: Row, y: Row, w: Row)
    requires DerivedLookalike(z, y) && Lookalike(z, w)
    ensures Payload(z) == Payload(y) == Payload(w)
    ensures forall a, b :: !SameRow(a, b) ==> !SameRow(b, a)
  {
  }

  // ---------------------------------------------------------------- versions that do not add up

  /** "Could be the same row" is not transitive: a row without the field a collision is about fits both sides. */
  lemma {:induction false} SameRowNotTransitive(a: Row, b: Row, d: Row)
    requires NumberedRow(a) && NumberedRow(b) && NumberedRow(d) && a.id == b.id == d.id
    requires "title" in a.fields && "title" in d.fields && a.fields["title"] != d.fields["title"]
    requires forall k | k in IDENTITY_FIELDS :: k !in b.fields
    ensures SameRow(a, b) && SameRow(b, d) && !SameRow(a, d)
  {
    assert "title" in IDENTITY_FIELDS;
  }

  /** Two versions arrive and combine, then a row that is no version of the combination. */
  lemma {:induction false} CombinedThenOther(c: Codec, arrivals: seq<Arrival>, x: Row, y: Row, z: Row)
    requires arrivals == [Arrival(x, None), Arrival(y, None)] + [Arrival(z, None)]
    requires x.Obj? && y.Obj? && SameRow(x, y) && x != y && !SameRow(MergePair(c, x, y), z)
    ensures var cl := Build(c, arrivals);
      |cl| == 2 && cl[0].row == MergePair(c, x, y) && cl[1].row == z
  {
    var k := Arrival(z, None);
    OneThenVersion(c, x, y);
    assert Arrivals([], [x], [y]) == [Arrival(x, None), Arrival(y, None)];
    var cu := NoteRow(c, Newcomer(x), Arrival(y, None));
    assert cu.row == MergePair(c, x, y);
    hide NoteRow, MergePair, SameRow, Build;
    BuildFresh(c, [Arrival(x, None), Arrival(y, None)], [cu], k);
  }

  /** So the order of arrival decides which side the row in the middle joins, and with a field of its own the results
      show different contents. */
  lemma {:induction false} MiddleRowSpoils(c: Codec, a: Row, b: Row, d: Row, k: string)
    requires NumberedRow(a) && NumberedRow(b) && NumberedRow(d) && a.id == b.id == d.id
    requires "title" in a.fields && "title" in d.fields && a.fields["title"] != d.fields["title"]
    requires (forall f | f in IDENTITY_FIELDS :: f !in b.fields) && k in b.fields && k !in a.fields
    ensures Merged(c, [], [a], [b, d]) != Merged(c, [], [b, d], [a])
  {
    SameRowNotTransitive(a, b, d);
    var u, v := MergePair(c, a, b), MergePair(c, b, d);
    MiddleTakes(c, a, b, d, k);
    hide *;
    MiddleArrivals(a, b, d);
    CombinedThenOther(c, Arrivals([], [a], [b, d]), a, b, d);
    CombinedThenOther(c, Arrivals([], [b, d], [a]), b, d, a);
    ShownNotShown(c, Build(c, Arrivals([], [a], [b, d])), Build(c, Arrivals([], [b, d], [a])), u);
    MergedIs(c, [], [a], [b, d]);
    MergedIs(c, [], [b, d], [a]);
  }

  lemma {:induction false} MiddleArrivals(a: Row, b: Row, d: Row)
    ensures Arrivals([], [a], [b, d]) == [Arrival(a, None), Arrival(b, None)] + [Arrival(d, None)]
    ensures Arrivals([], [b, d], [a]) == [Arrival(b, None), Arrival(d, None)] + [Arrival(a, None)]
  {
  }

  lemma {:induction false} MiddleTakes(c: Codec, a: Row, b: Row, d: Row, k: string)
    requires NumberedRow(a) && NumberedRow(b) && NumberedRow(d) && a.id == b.id == d.id
    requires "title" in a.fields && "title" in d.fields && a.fields["title"] != d.fields["title"]
    requires (forall f | f in IDENTITY_FIELDS :: f !in b.fields) && k in b.fields && k !in a.fields
    ensures var u, v := MergePair(c, a, b), MergePair(c, b, d);
      && !SameRow(u, d) && !SameRow(v, a) && a != b && b != d && Payload(u) != Payload(v) && Payload(u) != Payload(a)
      && a.Obj? && b.Obj? && d.Obj?
  {
    assert "title" in IDENTITY_FIELDS;
    var u, v := MergePair(c, a, b), MergePair(c, b, d);
    assert u.fields["title"] == a.fields["title"] && v.fields["title"] == d.fields["title"];
    assert Payload(u).fields == u.fields && Payload(v).fields == v.fields && Payload(a).fields == a.fields;
    assert k in u.fields;
  }

  lemma {:induction false} ShownNotShown(c: Codec, cl: seq<Cluster>, dl: seq<Cluster>, u: Row)
    requires |cl| == 2 && cl[0].row == u && |dl| == 2
    requires Payload(dl[0].row) != Payload(u) && Payload(dl[1].row) != Payload(u)
    ensures Settle(c, Ordered(c, cl)) != Settle(c, Ordered(c, dl))
  {
    hide Settle, Ordered, Payload;
    ResultContents(c, cl, Payload(u));
    ResultContents(c, dl, Payload(u));
    assert cl[0] in cl;
  }

  // ---------------------------------------------------------------- one content under ids of two shapes

  /** Content `x`, `y` stands under a text and under a number, both of them held by other rows of the base. */
  ghost predicate TwoShapes(q: Row, r: Row, x: Row, y: Row, s: string, n: int) {
    && RowId(q) == RowId(x) == Some(Str(s)) && RowId(r) == RowId(y) == Some(Num(n)) && s != IdText(Num(n))
    && Payload(x) == Payload(y) && Payload(q) != Payload(r)
    && !AgreeOnIdentity(q.fields, x.fields) && !AgreeOnIdentity(r.fields, y.fields)
  }

  lemma {:induction false} ShapesApart(q: Row, r: Row, x: Row, y: Row, s: string, n: int)
    requires TwoShapes(q, r, x, y, s, n)
    ensures !SameRow(q, r) && !SameRow(q, x) && !SameRow(q, y) && !SameRow(r, x) && !SameRow(r, y)
    ensures !SameRow(x, y) && !SameRow(y, x)
    ensures Payload(q) != Payload(x) && Payload(r) != Payload(x)
  {
    DifferentContents(q, x);
    DifferentContents(r, y);
  }

  /** The board with the two lookalikes in either order of arrival. */
  lemma {:induction false} ShapesBuild(c: Codec, q: Row, r: Row, v: Row, w: Row)
    requires !SameRow(q, r) && !SameRow(q, v) && !SameRow(q, w) && !SameRow(r, v) && !SameRow(r, w) && !SameRow(v, w)
    ensures Build(c, Arrivals([q, r], [v], [w])) == [OfBase(q, 0), OfBase(r, 1)] + [Newcomer(v), Newcomer(w)]
  {
    hide *;
    var i, j, k, l := Arrival(q, Some(0)), Arrival(r, Some(1)), Arrival(v, None), Arrival(w, None);
    FourArrivals(q, r, v, w);
    BuildThree(c, i, j, k);
    BuildFresh(c, [i, j, k], [OfBase(q, 0), OfBase(r, 1), Newcomer(v)], l);
  }

  lemma {:induction false} FourArrivals(q: Row, r: Row, v: Row, w: Row)
    ensures Arrivals([q, r], [v], [w])
         == [Arrival(q, Some(0)), Arrival(r, Some(1)), Arrival(v, None)] + [Arrival(w, None)]
    ensures Opened(Arrival(q, Some(0))) == OfBase(q, 0) && Opened(Arrival(r, Some(1))) == OfBase(r, 1)
    ensures Opened(Arrival(v, None)) == Newcomer(v) && Opened(Arrival(w, None)) == Newcomer(w)
    ensures OfBase(q, 0).row == q && OfBase(r, 1).row == r && Newcomer(v).row == v
    ensures [OfBase(q, 0), OfBase(r, 1), Newcomer(v)] + [Newcomer(w)]
         == [OfBase(q, 0), OfBase(r, 1)] + [Newcomer(v), Newcomer(w)]
  {
  }

  lemma {:induction false} ShapesOrder(c: Codec, front: seq<Cluster>, v: Cluster, w: Cluster)
    requires |front| == 2 && front[0].basePos == Some(0) && front[1].basePos == Some(1)
    requires IsNew(v) && IsNew(w) && Payload(v.row) == Payload(w.row)
    ensures Ordered(c, front + [v, w]) == front + [v, w]
  {
    SameContentLe(c, v.row, w.row);
    hide OrderLe, SortBy, Ordered, Payload;
    OrderedSplit(c, front, [v, w]);
    SortedStays(BasePosLe, front);
    assert SortedBy(ContentLe(c), [v, w]) by {
      ContentLeMeans(c, v, w);
    }
    SortedStays(ContentLe(c), [v, w]);
  }

  lemma {:induction false} ShapesKeys(q: Cluster, r: Cluster, v: Cluster, w: Cluster)
    requires Payload(v.row) == Payload(w.row)
    requires Payload(q.row) != Payload(r.row) && Payload(q.row) != Payload(v.row) && Payload(r.row) != Payload(v.row)
    ensures Contents([q, r] + [v, w]) == [Payload(q.row), Payload(r.row)] + [Payload(v.row)]
  {
    var a, b, p := Payload(q.row), Payload(r.row), Payload(v.row);
    assert MapSeq(PayloadOf, [q, r] + [v, w]) == [a, b] + [p] + [p];
    ThreeOnce(a, b, p);
  }

  lemma {:induction false} ThreeOnce<T(!new)>(a: T, b: T, p: T)
    requires a != b && a != p && b != p
    ensures Distinct([a, b] + [p] + [p]) == [a, b] + [p]
  {
    DistinctFew(a, b);
    DistinctSnoc([a, b], p);
    DistinctSnoc([a, b] + [p], p);
  }

  lemma {:induction false} ShapesGroups(q: Cluster, r: Cluster, v: Cluster, w: Cluster)
    requires Payload(v.row) == Payload(w.row)
    requires Payload(q.row) != Payload(r.row) && Payload(q.row) != Payload(v.row) && Payload(r.row) != Payload(v.row)
    ensures Group([q, r] + [v, w], Payload(q.row)) == [q] && Group([q, r] + [v, w], Payload(r.row)) == [r]
    ensures Group([q, r] + [v, w], Payload(v.row)) == [v, w]
  {
    var s := [q, r] + [v, w];
    hide Payload, Filter;
    AloneInGroup(s, 0);
    AloneInGroup(s, 1);
    FilterSplit(PaysAs(Payload(v.row)), [v, w], [q, r]);
  }

  /** Both ids are disputed, so the lookalikes fold. */
  lemma {:induction false} ShapesFold(q: Cluster, r: Cluster, v: Cluster, w: Cluster, i: Id, j: Id)
    requires Payload(v.row) == Payload(w.row) && Payload(q.row) != Payload(v.row) && Payload(r.row) != Payload(v.row)
    requires ClusterIds(v) == [i] && ClusterIds(w) == [j] && i != j && v.baseId.None?
    requires (ClusterIds(q) == [i] && ClusterIds(r) == [j]) || (ClusterIds(q) == [j] && ClusterIds(r) == [i])
    ensures EntriesOf([q, r] + [v, w], [v, w]) == [Entry(v.row, [i, j], None, 2)]
  {
    PairIds(v, w, i, j);
    FourThere(q, r, v, w);
    var s := [q, r] + [v, w];
    hide ClusterIds, GroupIds, Payload, Contested;
    Disputing(s, v, if ClusterIds(q) == [i] then q else r, i);
    Disputing(s, w, if ClusterIds(q) == [j] then q else r, j);
    PairDisputed(s, i, j);
  }

  lemma {:induction false} FourThere(q: Cluster, r: Cluster, v: Cluster, w: Cluster)
    ensures var s := [q, r] + [v, w]; q in s && r in s && v in s && w in s
  {
    var s := [q, r] + [v, w];
    assert s[0] == q && s[1] == r && s[2] == v && s[3] == w;
  }

  lemma {:induction false} Disputing(s: seq<Cluster>, x: Cluster, y: Cluster, id: Id)
    requires x in s && y in s && ClusterIds(x) == [id] && ClusterIds(y) == [id] && Payload(x.row) != Payload(y.row)
    ensures Contested(s, id)
  {
  }

  lemma {:induction false} PairDisputed(s: seq<Cluster>, i: Id, j: Id)
    requires Contested(s, i) && Contested(s, j)
    ensures AllContested(s, [i, j])
  {
    hide Contested;
  }

  lemma {:induction false} ShapesLogical(q: Cluster, r: Cluster, v: Cluster, w: Cluster, i: Id, j: Id)
    requires Payload(v.row) == Payload(w.row)
    requires Payload(q.row) != Payload(r.row) && Payload(q.row) != Payload(v.row) && Payload(r.row) != Payload(v.row)
    requires ClusterIds(v) == [i] && ClusterIds(w) == [j] && i != j && v.baseId.None?
    requires (ClusterIds(q) == [i] && ClusterIds(r) == [j]) || (ClusterIds(q) == [j] && ClusterIds(r) == [i])
    ensures var s := [q, r] + [v, w];
      Logical(s, Contents(s)) == [Single(q), Single(r)] + [Entry(v.row, [i, j], None, 2)]
  {
    hide *;
    var s := [q, r] + [v, w];
    ShapesKeys(q, r, v, w);
    ShapesGroups(q, r, v, w);
    ShapesFold(q, r, v, w, i, j);
    SingleEntry(s, q);
    SingleEntry(s, r);
    TwoKeys(s, Payload(q.row), Payload(r.row), [Single(q)], [Single(r)]);
    LogicalSnoc(s, [Payload(q.row), Payload(r.row)], Payload(v.row));
    assert [Single(q)] + [Single(r)] == [Single(q), Single(r)];
  }

  /** The folded row has no id left, and is renumbered in the shape of the row that arrived first. */
  lemma {:induction false} ShapesAssigned(c: Codec, d: Entry, e: Entry, f: Entry, i: Id, j: Id, taken: set<Id>)
    requires d.baseId == Some(i) && e.baseId == Some(j) && i != j
    requires f.baseId.None? && RowId(f.row).Some? && forall x | x in f.ids :: x == i || x == j
    ensures var rows := Assign(c, [d, e] + [f], {}, taken);
      |rows| == 3 && RowId(rows[2]) == Some(FreshId(c, RowId(f.row), c.digest(Payload(f.row)), taken + {i} + {j}))
  {
    AssignFirst(c, d, [e] + [f], {}, taken, Some(i));
    AssignFirst(c, e, [f], {} + {i}, taken + {i}, Some(j));
    BestFree(f.ids, {} + {i} + {j});
    hide FreshId;
    var h := FreshId(c, RowId(f.row), c.digest(Payload(f.row)), taken + {i} + {j});
    assert Choice(c, f, {} + {i} + {j}, taken + {i} + {j}) == Some(h);
    AssignFirst(c, f, [], {} + {i} + {j}, taken + {i} + {j}, Some(h));
    assert [d] + ([e] + [f]) == [d, e] + [f] && [f] + [] == [f];
  }

  lemma {:induction false} ShapesMerged(c: Codec, q: Row, r: Row, v: Row, w: Row, cq: Cluster, cr: Cluster, cv: Cluster,
          cw: Cluster)
    requires !SameRow(q, r) && !SameRow(q, v) && !SameRow(q, w) && !SameRow(r, v) && !SameRow(r, w) && !SameRow(v, w)
    requires cq == OfBase(q, 0) && cr == OfBase(r, 1) && cv == Newcomer(v) && cw == Newcomer(w)
    requires Payload(cv.row) == Payload(cw.row)
    ensures Merged(c, [q, r], [v], [w]) == Settle(c, [cq, cr] + [cv, cw])
  {
    NewRow(v);
    NewRow(w);
    ShapesEntries(q, r, v);
    hide *;
    ShapesBuild(c, q, r, v, w);
    ShapesOrder(c, [cq, cr], cv, cw);
    MergedIs(c, [q, r], [v], [w]);
  }

  lemma {:induction false} ShapesSettled(c: Codec, q: Cluster, r: Cluster, v: Cluster, w: Cluster, i: Id, j: Id, k: Id,
          l: Id)
    requires Payload(v.row) == Payload(w.row) && Payload(q.row) != Payload(r.row)
    requires Payload(q.row) != Payload(v.row) && Payload(r.row) != Payload(v.row)
    requires ClusterIds(q) == [i] && ClusterIds(r) == [j] && ClusterIds(v) == [k] && ClusterIds(w) == [l] && i != j
    requires (k == i && l == j) || (k == j && l == i)
    requires Single(q).baseId == Some(i) && Single(r).baseId == Some(j) && v.baseId.None? && RowId(v.row).Some?
    ensures var rows := Settle(c, [q, r] + [v, w]);
      |rows| == 3 && RowId(rows[2])
        == Some(FreshId(c, RowId(v.row), c.digest(Payload(v.row)), InitialTaken([q, r] + [v, w]) + {i} + {j}))
  {
    hide *;
    SettleIs(c, [q, r] + [v, w]);
    ShapesLogical(q, r, v, w, k, l);
    assert forall x | x in [k, l] :: x == i || x == j;
    ShapesAssigned(c, Single(q), Single(r), Entry(v.row, [k, l], None, 2), i, j, InitialTaken([q, r] + [v, w]));
  }

  lemma {:induction false} ShapesResult(c: Codec, q: Row, r: Row, v: Row, w: Row, i: Id, j: Id)
    requires !SameRow(q, r) && !SameRow(q, v) && !SameRow(q, w) && !SameRow(r, v) && !SameRow(r, w) && !SameRow(v, w)
    requires Payload(v) == Payload(w) && Payload(q) != Payload(r) && Payload(q) != Payload(v)
    requires Payload(r) != Payload(v)
    requires RowId(q) == Some(i) && RowId(r) == Some(j) && i != j
    requires (RowId(v) == Some(i) && RowId(w) == Some(j)) || (RowId(v) == Some(j) && RowId(w) == Some(i))
    ensures var rows, s := Merged(c, [q, r], [v], [w]), [OfBase(q, 0), OfBase(r, 1)] + [Newcomer(v), Newcomer(w)];
      |rows| == 3
      && RowId(rows[2]) == Some(FreshId(c, RowId(v), c.digest(Payload(v)), InitialTaken(s) + {i} + {j}))
  {
    OfBaseIds(q, 0);
    OfBaseIds(r, 1);
    NewcomerIds(v);
    NewcomerIds(w);
    NewRow(v);
    NewRow(w);
    ShapesEntries(q, r, v);
    ShapesEntries(q, r, w);
    hide *;
    ShapesMerged(c, q, r, v, w, OfBase(q, 0), OfBase(r, 1), Newcomer(v), Newcomer(w));
    ShapesSettled(c, OfBase(q, 0), OfBase(r, 1), Newcomer(v), Newcomer(w), i, j, RowId(v).value, RowId(w).value);
  }

  lemma {:induction false} ShapesEntries(q: Row, r: Row, v: Row)
    ensures Single(OfBase(q, 0)).baseId == RowId(q) && Single(OfBase(r, 1)).baseId == RowId(r)
    ensures OfBase(q, 0).row == q && OfBase(r, 1).row == r && Newcomer(v).baseId.None?
    ensures OfBase(q, 0).basePos == Some(0) && OfBase(r, 1).basePos == Some(1)
    ensures RowId(v).Some? ==> RowId(v).value == v.id.value
    ensures RowId(q).Some? ==> RowId(q).value == q.id.value
    ensures RowId(r).Some? ==> RowId(r).value == r.id.value
  {
  }

  /** A content folded from ids of two shapes that both are held is renumbered in the shape of the id that arrived
      first, so swapping the sides changes the board. */
  lemma {:induction false} ShapesDependOnSides(c: Codec, q: Row, r: Row, x: Row, y: Row, s: string, n: int)
    requires TwoShapes(q, r, x, y, s, n)
    ensures Merged(c, [q, r], [x], [y]) != Merged(c, [q, r], [y], [x])
  {
    ShapesApart(q, r, x, y, s, n);
    assert RowId(x) == Some(Str(s)) && RowId(y) == Some(Num(n)) && Payload(x) == Payload(y);
    hide SameRow, Payload, Merged, FreshId, TwoShapes;
    ShapesResult(c, q, r, x, y, Str(s), Num(n));
    ShapesResult(c, q, r, y, x, Str(s), Num(n));
    var t := [OfBase(q, 0), OfBase(r, 1)] + [Newcomer(x), Newcomer(y)];
    var u := [OfBase(q, 0), OfBase(r, 1)] + [Newcomer(y), Newcomer(x)];
    ShapeKept(c, s, n, c.digest(Payload(x)), InitialTaken(t) + {Str(s)} + {Num(n)},
              InitialTaken(u) + {Str(s)} + {Num(n)});
  }

  lemma {:induction false} ShapeKept(c: Codec, s: string, n: int, hint: string, taken: set<Id>, other: set<Id>)
    ensures FreshId(c, Some(Str(s)), hint, taken) != FreshId(c, Some(Num(n)), hint, other)
  {
  }
}
