/** Order independence: the result does not depend on which side git called `ours`, edits included. */
module MergeSymmetry {
  import opened Prelude
  import opened BoardRows
  import opened IdSpace
  import opened MergeSpec
  import opened MergeLossless
  import opened MergeVersions

  // ---------------------------------------------------------------- id choice ignores candidate order

  lemma {:induction false} FirstUnclaimedLeast(ids: seq<Id>, claimed: set<Id>)
    requires SortedBy(IdLe, ids)
    ensures var f := FirstUnclaimed(ids, claimed);
      f.Some? ==> forall x | x in ids && x !in claimed :: IdLe(f.value, x)
  {
    IdLeTotalOrder();
    if ids != [] {
      FirstUnclaimedLeast(ids[1..], claimed);
      var f := FirstUnclaimed(ids, claimed);
      if ids[0] !in claimed {
        forall x | x in ids ensures IdLe(ids[0], x) {
          var i :| 0 <= i < |ids| && ids[i] == x;
        }
      }
    }
  }

  /** The candidate an entry takes is the best of its unclaimed ones. */
  lemma {:induction false} BestFree(ids: seq<Id>, claimed: set<Id>)
    ensures var f := FirstUnclaimed(SortBy(IdLe, ids), claimed);
      && (f.Some? ==> f.value in ids && f.value !in claimed && forall x | x in ids && x !in claimed :: IdLe(f.value, x))
      && (f.None? ==> forall x | x in ids :: x in claimed)
  {
    IdLeTotalOrder();
    hide IdLe;
    SortPermutes(IdLe, ids);
    SortSorts(IdLe, ids);
    FirstUnclaimedLeast(SortBy(IdLe, ids), claimed);
  }

  lemma {:induction false} SameCandidatesSameChoice(a: seq<Id>, b: seq<Id>, claimed: set<Id>)
    requires forall x :: x in a <==> x in b
    ensures FirstUnclaimed(SortBy(IdLe, a), claimed) == FirstUnclaimed(SortBy(IdLe, b), claimed)
  {
    IdLeTotalOrder();
    SortPermutes(IdLe, a);
    SortPermutes(IdLe, b);
    SortSorts(IdLe, a);
    SortSorts(IdLe, b);
    FirstUnclaimedLeast(SortBy(IdLe, a), claimed);
    FirstUnclaimedLeast(SortBy(IdLe, b), claimed);
  }

  // ---------------------------------------------------------------- entries that only differ by arrival

  /** Two ids a renumbering makes the same id of: numbers, or numbers behind one prefix. */
  predicate Interchangeable(c: Codec, p: Row, x: Id, y: Id) {
    || (x.Num? && y.Num?)
    || (Tailed(x) && Tailed(y) && x.s[..TailStart(x.s)] == y.s[..TailStart(y.s)] && c.digest(p) != "")
  }

  lemma {:induction false} SameFresh(c: Codec, p: Row, x: Id, y: Id, taken: set<Id>)
    requires Interchangeable(c, p, x, y)
    ensures FreshId(c, Some(x), c.digest(p), taken) == FreshId(c, Some(y), c.digest(p), taken)
  {
  }

  /** The same logical row, seen under the same interchangeable ids in another order. */
  ghost predicate Alike(c: Codec, d: Entry, e: Entry) {
    || d == e
    || (&& d.row.Obj? && e.row.Obj? && d.row.fields == e.row.fields
        && d.baseId == e.baseId && d.ids != [] && e.ids != []
        && (forall x :: x in d.ids <==> x in e.ids)
        && (forall x, y | x in d.ids && y in d.ids :: Interchangeable(c, Payload(d.row), x, y))
        && (d.row.id.Some? ==> d.row.id.value in d.ids) && (e.row.id.Some? ==> e.row.id.value in e.ids))
  }

  lemma {:induction false} AlikeChoice(c: Codec, d: Entry, e: Entry, claimed: set<Id>, taken: set<Id>)
    requires Alike(c, d, e)
    ensures Choice(c, d, claimed, taken) == Choice(c, e, claimed, taken)
    ensures WithId(d.row, Choice(c, d, claimed, taken)) == WithId(e.row, Choice(c, e, claimed, taken))
  {
    if d != e {
      SameCandidatesSameChoice(d.ids, e.ids, claimed);
      assert d.ids[0] in d.ids && e.ids[0] in d.ids;
      assert Payload(d.row) == Payload(e.row);
      SameFresh(c, Payload(d.row), Like(d).value, Like(e).value, taken);
    }
  }

  lemma {:induction false} AlikeAssign(c: Codec, ds: seq<Entry>, es: seq<Entry>, claimed: set<Id>, taken: set<Id>)
    requires |ds| == |es| && forall i | 0 <= i < |ds| :: Alike(c, ds[i], es[i])
    ensures Assign(c, ds, claimed, taken) == Assign(c, es, claimed, taken)
  {
    if ds != [] {
      AlikeChoice(c, ds[0], es[0], claimed, taken);
      var id := Choice(c, ds[0], claimed, taken);
      AlikeAssign(c, ds[1..], es[1..], Added(claimed, id), Added(taken, id));
    }
  }

  // ---------------------------------------------------------------- orders that only differ in ties

  /** Two emission orders of the same clusters, content by content the same, with the base part equal. */
  ghost predicate SameButTies(a: seq<Cluster>, b: seq<Cluster>) {
    && MapSeq(PayloadOf, a) == MapSeq(PayloadOf, b)
    && multiset(a) == multiset(b)
    && Filter(InBase, a) == Filter(InBase, b)
  }

  /** A group with more than one new row is folded into one. */
  ghost predicate TiesFold(ordered: seq<Cluster>) {
    forall p | p in Contents(ordered) ::
      |Filter(IsNew, Group(ordered, p))| <= 1 || Collapses(ordered, Group(ordered, p))
  }

  /** Rows of one content are left apart throughout. */
  ghost predicate NothingFolds(ordered: seq<Cluster>) {
    forall p | p in Contents(ordered) :: !Collapses(ordered, Group(ordered, p))
  }

  /** The groups that are left apart stand in the same order in both. */
  ghost predicate SameUnfolded(a: seq<Cluster>, b: seq<Cluster>) {
    forall p | p in Contents(a) && !Collapses(a, Group(a, p)) ::
        Filter(IsNew, Group(a, p)) == Filter(IsNew, Group(b, p))
  }

  /** The cluster has been seen under its row's own id only. */
  ghost predicate OwnCluster(cu: Cluster) {
    && (forall id | id in ClusterIds(cu) :: RowId(cu.row) == Some(id))
    && (cu.basePos.None? ==> cu.baseId.None?)
  }

  /** The ids one content stands under renumber alike. */
  ghost predicate OneShape(c: Codec, rows: seq<Row>) {
    forall a, b | a in rows && b in rows && Payload(a) == Payload(b) && RowId(a).Some? && RowId(b).Some? ::
      Interchangeable(c, Payload(a), a.id.value, b.id.value)
  }

  ghost predicate GroupShape(c: Codec, g: seq<Cluster>, p: Row) {
    && (forall cu | cu in g :: OwnCluster(cu) && Payload(cu.row) == p)
    && OneShape(c, RowsOf(g))
  }

  lemma {:induction false} SameMembers<T>(a: seq<T>, b: seq<T>)
    requires multiset(a) == multiset(b)
    ensures forall x :: x in a <==> x in b
    ensures |a| == |b|
  {
    forall x ensures x in a <==> x in b {
      assert x in multiset(a) <==> x in multiset(b);
    }
    assert |multiset(a)| == |multiset(b)|;
  }

  lemma {:induction false} SameFilter(keep: Cluster -> bool, a: seq<Cluster>, b: seq<Cluster>)
    requires multiset(a) == multiset(b)
    ensures multiset(Filter(keep, a)) == multiset(Filter(keep, b))
  {
    forall x ensures multiset(Filter(keep, a))[x] == multiset(Filter(keep, b))[x] {
      FilterMultiset(keep, a, x);
      FilterMultiset(keep, b, x);
    }
  }

  lemma {:induction false} SameContested(a: seq<Cluster>, b: seq<Cluster>, ids: seq<Id>)
    requires forall x :: x in a <==> x in b
    ensures AllContested(a, ids) <==> AllContested(b, ids)
  {
    forall id ensures Contested(a, id) <==> Contested(b, id) {
    }
  }

  lemma {:induction false} SameGroupIds(g: seq<Cluster>, h: seq<Cluster>)
    requires forall x :: x in g <==> x in h
    ensures forall x :: x in GroupIds(g) <==> x in GroupIds(h)
    ensures GroupIds(g) == [] <==> GroupIds(h) == []
  {
    var i, j := GroupIds(g), GroupIds(h);
    forall x ensures x in i <==> x in j {
      assert x in AllIds(g) <==> x in AllIds(h);
    }
    if i != [] { assert i[0] in j; }
    if j != [] { assert j[0] in i; }
  }

  lemma {:induction false} SameRule(a: seq<Cluster>, ids: seq<Id>, more: seq<Id>)
    requires forall x :: x in ids <==> x in more
    ensures AnyDerived(ids) <==> AnyDerived(more)
    ensures AllContested(a, ids) <==> AllContested(a, more)
  {
  }

  lemma {:induction false} SameCollapse(a: seq<Cluster>, b: seq<Cluster>, g: seq<Cluster>, h: seq<Cluster>)
    requires multiset(a) == multiset(b) && multiset(g) == multiset(h)
    ensures forall x :: x in GroupIds(g) <==> x in GroupIds(h)
    ensures Collapses(a, g) <==> Collapses(b, h)
  {
    SameMembers(a, b);
    SameMembers(g, h);
    SameGroupIds(g, h);
    SameRule(a, GroupIds(g), GroupIds(h));
    SameContested(a, b, GroupIds(h));
  }

  lemma {:induction false} FilterTwice(p: Row, s: seq<Cluster>)
    ensures Filter(InBase, Group(s, p)) == Group(Filter(InBase, s), p)
  {
    if s != [] {
      var front, last := s[..|s| - 1], s[|s| - 1];
      LastSplit(s);
      FilterTwice(p, front);
      FilterSnoc(PaysAs(p), front, last);
      FilterSnoc(InBase, front, last);
      FilterSnoc(InBase, Group(front, p), last);
      FilterSnoc(PaysAs(p), Filter(InBase, front), last);
    }
  }

  /** Base clusters stand before new ones. */
  ghost predicate BaseLeads(s: seq<Cluster>) {
    s == Filter(InBase, s) + Filter(IsNew, s)
  }

  lemma {:induction false} GroupLeads(a: seq<Cluster>, b: seq<Cluster>, p: Row)
    requires forall i | 0 <= i < |a| :: InBase(a[i])
    requires forall i | 0 <= i < |b| :: IsNew(b[i])
    ensures BaseLeads(Group(a + b, p))
  {
    FilterAppend(PaysAs(p), a, b);
    var x, y := Group(a, p), Group(b, p);
    MembersKeep(InBase, a, x);
    MembersKeep(IsNew, b, y);
    FilterSplit(InBase, x, y);
    FilterSplit(IsNew, y, x);
  }

  lemma {:induction false} MembersKeep(keep: Cluster -> bool, s: seq<Cluster>, t: seq<Cluster>)
    requires (forall i | 0 <= i < |s| :: keep(s[i])) && forall x | x in t :: x in s
    ensures forall i | 0 <= i < |t| :: keep(t[i])
  {
    forall i | 0 <= i < |t| ensures keep(t[i]) {
      assert t[i] in t;
    }
  }

  lemma {:induction false} ShortSame(a: seq<Cluster>, b: seq<Cluster>)
    requires multiset(a) == multiset(b) && |a| <= 1
    ensures a == b
  {
    SameMembers(a, b);
    if a != [] { assert a[0] in b; }
  }

  /** One group's entries agree up to arrival order. */
  lemma {:induction false} GroupAlike(c: Codec, a: seq<Cluster>, b: seq<Cluster>, p: Row)
    requires SameButTies(a, b) && GroupShape(c, Group(a, p), p)
    requires BaseLeads(Group(a, p)) && BaseLeads(Group(b, p))
    requires Filter(IsNew, Group(a, p)) == Filter(IsNew, Group(b, p)) || Collapses(a, Group(a, p))
    ensures AllAlike(c, EntriesOf(a, Group(a, p)), EntriesOf(b, Group(b, p)))
  {
    var g, h := Group(a, p), Group(b, p);
    SameFilter(PaysAs(p), a, b);
    SameMembers(g, h);
    SameCollapse(a, b, g, h);
    FilterTwice(p, a);
    FilterTwice(p, b);
    assert Filter(InBase, g) == Filter(InBase, h);
    if Collapses(a, g) {
      FoldedGroupAlike(c, a, b, g, h, p);
    } else {
      assert g == h;
      SameGroupAlike(c, a, b, g);
    }
  }

  lemma {:induction false} SameGroupAlike(c: Codec, a: seq<Cluster>, b: seq<Cluster>, g: seq<Cluster>)
    requires Collapses(a, g) <==> Collapses(b, g)
    ensures AllAlike(c, EntriesOf(a, g), EntriesOf(b, g))
  {
    assert EntriesOf(a, g) == EntriesOf(b, g);
  }

  lemma {:induction false} FoldedGroupAlike(c: Codec, a: seq<Cluster>, b: seq<Cluster>, g: seq<Cluster>,
          h: seq<Cluster>, p: Row)
    requires Collapses(a, g) && Collapses(b, h) && |g| == |h|
    requires forall x :: x in g <==> x in h
    requires forall x :: x in GroupIds(g) <==> x in GroupIds(h)
    requires GroupShape(c, g, p)
    requires BaseLeads(g) && BaseLeads(h) && Filter(InBase, g) == Filter(InBase, h)
    ensures AllAlike(c, EntriesOf(a, g), EntriesOf(b, h))
  {
    CollapsedAlike(c, g, h, p);
    FoldedIsOne(a, g);
    FoldedIsOne(b, h);
    OneAlike(c, Folded(g), Folded(h));
  }

  function Folded(g: seq<Cluster>): Entry
    requires g != []
  {
    Entry(g[0].row, GroupIds(g), g[0].baseId, |g|)
  }

  lemma {:induction false} FoldedIsOne(ordered: seq<Cluster>, g: seq<Cluster>)
    requires Collapses(ordered, g)
    ensures EntriesOf(ordered, g) == [Folded(g)]
  {
  }

  lemma {:induction false} OneAlike(c: Codec, d: Entry, e: Entry)
    requires Alike(c, d, e)
    ensures AllAlike(c, [d], [e])
  {
  }

  lemma {:induction false} SameLeader(g: seq<Cluster>, h: seq<Cluster>)
    requires g != [] && h != []
    requires BaseLeads(g) && BaseLeads(h) && Filter(InBase, g) == Filter(InBase, h)
    requires forall cu | cu in g || cu in h :: OwnCluster(cu)
    ensures g[0].baseId == h[0].baseId
  {
    if Filter(InBase, g) != [] {
      assert g[0] == Filter(InBase, g)[0] == h[0];
    } else {
      assert g == Filter(IsNew, g) && h == Filter(IsNew, h);
      assert g[0] in Filter(IsNew, g) && h[0] in Filter(IsNew, h);
    }
  }

  /** A group with an id is a group of objects, and its ids renumber alike. */
  lemma {:induction false} GroupIdsAlike(c: Codec, g: seq<Cluster>, p: Row)
    requires GroupIds(g) != [] && GroupShape(c, g, p)
    ensures p.Obj? && forall x, y | x in GroupIds(g) && y in GroupIds(g) :: Interchangeable(c, p, x, y)
  {
    forall x, y | x in GroupIds(g) && y in GroupIds(g) ensures p.Obj? && Interchangeable(c, p, x, y) {
      var a := RowUnder(g, p, x);
      var b := RowUnder(g, p, y);
      assert Payload(a) == Payload(b) == p;
    }
    assert GroupIds(g)[0] in GroupIds(g);
  }

  lemma {:induction false} RowUnder(g: seq<Cluster>, p: Row, x: Id) returns (row: Row)
    requires x in GroupIds(g) && forall cu | cu in g :: OwnCluster(cu) && Payload(cu.row) == p
    ensures row in RowsOf(g) && RowId(row) == Some(x) && Payload(row) == p
  {
    assert x in AllIds(g);
    var cu :| cu in g && x in ClusterIds(cu);
    var i :| 0 <= i < |g| && g[i] == cu;
    row := RowsOf(g)[i];
  }

  lemma {:induction false} CollapsedAlike(c: Codec, g: seq<Cluster>, h: seq<Cluster>, p: Row)
    requires g != [] && |g| == |h| && GroupIds(g) != [] && GroupIds(h) != []
    requires forall x :: x in g <==> x in h
    requires forall x :: x in GroupIds(g) <==> x in GroupIds(h)
    requires GroupShape(c, g, p)
    requires BaseLeads(g) && BaseLeads(h) && Filter(InBase, g) == Filter(InBase, h)
    ensures Alike(c, Folded(g), Folded(h))
  {
    assert g[0] in g && h[0] in h;
    SameLeader(g, h);
    GroupIdsAlike(c, g, p);
    assert OwnCluster(g[0]) && OwnCluster(h[0]);
    assert Payload(g[0].row) == p && Payload(h[0].row) == p;
    LeaderId(g);
    LeaderId(h);
  }

  lemma {:induction false} LeaderId(g: seq<Cluster>)
    requires g != []
    ensures RowId(g[0].row).Some? ==> g[0].row.id.value in GroupIds(g)
  {
    if RowId(g[0].row).Some? {
      assert g[0] in g && g[0].row.id.value in ClusterIds(g[0]);
      assert g[0].row.id.value in AllIds(g);
    }
  }

  ghost predicate AllAlike(c: Codec, ds: seq<Entry>, es: seq<Entry>) {
    |ds| == |es| && forall i | 0 <= i < |ds| :: Alike(c, ds[i], es[i])
  }

  lemma {:induction false} AlikeAppend(c: Codec, ds: seq<Entry>, es: seq<Entry>, ds': seq<Entry>, es': seq<Entry>)
    requires AllAlike(c, ds, es) && AllAlike(c, ds', es')
    ensures AllAlike(c, ds + ds', es + es')
  {
  }

  lemma {:induction false} LogicalAlike(c: Codec, a: seq<Cluster>, b: seq<Cluster>, keys: seq<Row>)
    requires SameButTies(a, b)
    requires forall p | p in keys :: GroupShape(c, Group(a, p), p)
    requires forall p | p in keys :: BaseLeads(Group(a, p)) && BaseLeads(Group(b, p))
    requires forall p | p in keys ::
        Filter(IsNew, Group(a, p)) == Filter(IsNew, Group(b, p)) || Collapses(a, Group(a, p))
    ensures AllAlike(c, Logical(a, keys), Logical(b, keys))
  {
    if keys != [] {
      var front, last := keys[..|keys| - 1], keys[|keys| - 1];
      assert last in keys;
      assert forall p | p in front :: p in keys;
      LogicalAlike(c, a, b, front);
      GroupAlike(c, a, b, last);
      AlikeAppend(c, Logical(a, front), Logical(b, front), EntriesOf(a, Group(a, last)), EntriesOf(b, Group(b, last)));
    }
  }

  lemma {:induction false} InitialTakenSame(a: seq<Cluster>, b: seq<Cluster>)
    requires SameButTies(a, b)
    ensures InitialTaken(a) == InitialTaken(b)
  {
    var keys := Contents(a);
    if keys != [] {
      SameFilter(PaysAs(keys[|keys| - 1]), a, b);
      SameIdsOf(Group(a, keys[|keys| - 1]), Group(b, keys[|keys| - 1]));
    }
  }

  lemma {:induction false} SameIdsOf(g: seq<Cluster>, h: seq<Cluster>)
    requires multiset(g) == multiset(h)
    ensures IdsOf(RowsOf(g)) == IdsOf(RowsOf(h))
  {
    SameMembers(g, h);
    forall id ensures id in IdsOf(RowsOf(g)) <==> id in IdsOf(RowsOf(h)) {
      IdsOfClusters(g, id);
      IdsOfClusters(h, id);
    }
  }

  lemma {:induction false} IdsOfClusters(g: seq<Cluster>, id: Id)
    ensures id in IdsOf(RowsOf(g)) <==> exists cu :: cu in g && RowId(cu.row) == Some(id)
  {
    if id in IdsOf(RowsOf(g)) {
      var i :| 0 <= i < |g| && RowId(RowsOf(g)[i]) == Some(id);
      assert g[i] in g;
    }
    if cu :| cu in g && RowId(cu.row) == Some(id) {
      var i :| 0 <= i < |g| && g[i] == cu;
      assert RowsOf(g)[i] == cu.row;
    }
  }

  /** The allocator starts from ids that rows carry. */
  lemma {:induction false} TakenFromRows(ordered: seq<Cluster>, id: Id)
    requires id in InitialTaken(ordered)
    ensures exists cu :: cu in ordered && RowId(cu.row) == Some(id)
  {
    var keys := Contents(ordered);
    IdsOfClusters(Group(ordered, keys[|keys| - 1]), id);
  }

  /** Everything after ordering ignores the arrival order of folded ties. */
  lemma {:induction false} SettleSame(c: Codec, a: seq<Cluster>, b: seq<Cluster>)
    requires SameButTies(a, b) && SameUnfolded(a, b)
    requires forall p | p in Contents(a) :: GroupShape(c, Group(a, p), p)
    requires forall p | p in Contents(a) :: BaseLeads(Group(a, p)) && BaseLeads(Group(b, p))
    ensures Settle(c, a) == Settle(c, b)
  {
    var keys := Contents(a);
    assert Contents(b) == keys;
    LogicalAlike(c, a, b, keys);
    InitialTakenSame(a, b);
    AlikeAssign(c, Logical(a, keys), Logical(b, keys), {}, InitialTaken(a));
  }

  /** Ties that fold leave nothing to stand in a different order. */
  lemma {:induction false} FoldedTies(a: seq<Cluster>, b: seq<Cluster>)
    requires SameButTies(a, b) && TiesFold(a)
    ensures SameUnfolded(a, b)
  {
    forall p | p in Contents(a) && !Collapses(a, Group(a, p))
      ensures Filter(IsNew, Group(a, p)) == Filter(IsNew, Group(b, p))
    {
      SameFilter(PaysAs(p), a, b);
      SameFilter(IsNew, Group(a, p), Group(b, p));
      ShortSame(Filter(IsNew, Group(a, p)), Filter(IsNew, Group(b, p)));
    }
  }

  // ---------------------------------------------------------------- the two emission orders

  lemma {:induction false} ContentLeTotal(c: Codec)
    ensures TotalPreorder(ContentLe(c))
  {
    forall a: Cluster, b: Cluster ensures ContentLe(c)(a, b) || ContentLe(c)(b, a) {
      OrderLeTotal(c, a.row, b.row);
    }
    forall a: Cluster, b: Cluster, d: Cluster | ContentLe(c)(a, b) && ContentLe(c)(b, d) ensures ContentLe(c)(a, d) {
      OrderLeTransitive(c, a.row, b.row, d.row);
    }
  }

  lemma {:induction false} BasePosLeTotal()
    ensures TotalPreorder(BasePosLe)
  {
  }

  function PayLe(c: Codec): (Row, Row) -> bool {
    (a: Row, b: Row) => OrderLe(c, a, b)
  }

  /** Sorted by content, two permutations of the same clusters show the same contents in the same order. */
  lemma {:induction false} SortedContents(c: Codec, a: seq<Cluster>, b: seq<Cluster>)
    requires CanonInjective(c) && multiset(a) == multiset(b)
    ensures MapSeq(PayloadOf, SortBy(ContentLe(c), a)) == MapSeq(PayloadOf, SortBy(ContentLe(c), b))
  {
    var s, t := SortBy(ContentLe(c), a), SortBy(ContentLe(c), b);
    ContentLeTotal(c);
    SortSorts(ContentLe(c), a);
    SortSorts(ContentLe(c), b);
    SortPermutes(ContentLe(c), a);
    SortPermutes(ContentLe(c), b);
    MapMultiset(PayloadOf, s, t);
    var x, y := MapSeq(PayloadOf, s), MapSeq(PayloadOf, t);
    PayloadsSorted(c, s);
    PayloadsSorted(c, t);
    forall p, q | p in x && q in x && PayLe(c)(p, q) && PayLe(c)(q, p) ensures p == q {
      var i :| 0 <= i < |x| && x[i] == p;
      var j :| 0 <= j < |x| && x[j] == q;
      OrderLeAntisymmetric(c, p, q);
      assert Payload(p) == p && Payload(q) == q;
    }
    SortedUnique(PayLe(c), x, y);
  }

  lemma {:induction false} PayloadsSorted(c: Codec, s: seq<Cluster>)
    requires SortedBy(ContentLe(c), s)
    ensures SortedBy(PayLe(c), MapSeq(PayloadOf, s))
  {
    forall i, j | 0 <= i < j < |s| ensures OrderLe(c, Payload(s[i].row), Payload(s[j].row)) {
      assert ContentLe(c)(s[i], s[j]);
      assert Payload(Payload(s[i].row)) == Payload(s[i].row);
      assert Payload(Payload(s[j].row)) == Payload(s[j].row);
      StampOfPayload(s[i].row);
      StampOfPayload(s[j].row);
    }
  }

  ghost predicate DistinctPlaces(cl: seq<Cluster>) {
    forall x, y | x in cl && y in cl :: x.basePos.Some? && x.basePos == y.basePos ==> x == y
  }

  lemma {:induction false} BasePartsEqual(a: seq<Cluster>, b: seq<Cluster>)
    requires multiset(a) == multiset(b) && DistinctPlaces(a) && forall x | x in a :: InBase(x)
    ensures SortBy(BasePosLe, a) == SortBy(BasePosLe, b)
  {
    BasePosLeTotal();
    SortSorts(BasePosLe, a);
    SortSorts(BasePosLe, b);
    SortPermutes(BasePosLe, a);
    SortPermutes(BasePosLe, b);
    SortedUnique(BasePosLe, SortBy(BasePosLe, a), SortBy(BasePosLe, b));
  }

  /** Joining an equal base part to two permutations of the new part. */
  lemma {:induction false} JoinParts(i: seq<Cluster>, s: seq<Cluster>, t: seq<Cluster>)
    requires forall x | x in i :: InBase(x)
    requires forall x | x in s + t :: IsNew(x)
    requires multiset(s) == multiset(t) && MapSeq(PayloadOf, s) == MapSeq(PayloadOf, t)
    ensures SameButTies(i + s, i + t)
  {
    MapAppend(PayloadOf, i, s);
    MapAppend(PayloadOf, i, t);
    SplitParts(i, s);
    SplitParts(i, t);
  }

  lemma {:induction false} OrderedSameButTies(c: Codec, a: seq<Cluster>, b: seq<Cluster>)
    requires CanonInjective(c) && multiset(a) == multiset(b) && DistinctPlaces(a)
    ensures SameButTies(Ordered(c, a), Ordered(c, b))
  {
    var x, y := Filter(InBase, a), Filter(InBase, b);
    var u, v := Filter(IsNew, a), Filter(IsNew, b);
    SameFilter(InBase, a, b);
    SameFilter(IsNew, a, b);
    BasePartsEqual(x, y);
    SortPermutes(BasePosLe, x);
    SortPermutes(ContentLe(c), u);
    SortPermutes(ContentLe(c), v);
    SortedContents(c, u, v);
    JoinParts(SortBy(BasePosLe, x), SortBy(ContentLe(c), u), SortBy(ContentLe(c), v));
  }

  lemma {:induction false} OrderedBaseLeads(c: Codec, a: seq<Cluster>, p: Row)
    ensures BaseLeads(Group(Ordered(c, a), p))
  {
    var i, s := SortBy(BasePosLe, Filter(InBase, a)), SortBy(ContentLe(c), Filter(IsNew, a));
    SortPermutes(BasePosLe, Filter(InBase, a));
    SortPermutes(ContentLe(c), Filter(IsNew, a));
    forall k | 0 <= k < |i| ensures InBase(i[k]) { assert i[k] in i; }
    forall k | 0 <= k < |s| ensures IsNew(s[k]) { assert s[k] in s; }
    GroupLeads(i, s, p);
  }

  lemma {:induction false} SplitParts(a: seq<Cluster>, b: seq<Cluster>)
    requires forall x | x in a :: InBase(x)
    requires forall x | x in b :: IsNew(x)
    ensures Filter(InBase, a + b) == a
  {
    FilterAppend(InBase, a, b);
    FilterAll(InBase, a);
    FilterNone(InBase, b);
    assert a + [] == a;
  }

  // ---------------------------------------------------------------- the claim

  lemma {:induction false} SwapSides(base: seq<Row>, ours: seq<Row>, theirs: seq<Row>)
    ensures forall row :: row in base + ours + theirs <==> row in base + theirs + ours
  {
  }

  lemma {:induction false} FirstPosNames(base: seq<Row>, row: Row)
    ensures var pos := FirstPos(BaseArrivals(base), row);
      pos.Some? ==> pos.value < |base| && SameRow(row, base[pos.value])
  {
    if base != [] {
      assert BaseArrivals(base)[..|base| - 1] == BaseArrivals(base[..|base| - 1]);
      FirstPosNames(base[..|base| - 1], row);
    }
  }

  lemma {:induction false} ClustersShaped(c: Codec, base: seq<Row>, ours: seq<Row>, theirs: seq<Row>)
    requires CanonInjective(c) && Coherent(base + ours + theirs)
    ensures var cl := Build(c, Arrivals(base, ours, theirs));
      && DistinctPlaces(cl)
      && forall cu | cu in cl ::
          OwnCluster(cu) && cu.row in base + ours + theirs && cu == ClusterFor(BaseArrivals(base), cu.row)
  {
    var rows := base + ours + theirs;
    var cl := Build(c, Arrivals(base, ours, theirs));
    ClusterSet(c, base, ours, theirs);
    forall cu | cu in cl ensures OwnCluster(cu) {
      ClusterForOwn(BaseArrivals(base), cu.row);
    }
    PlacesDistinct(rows, base, cl);
  }

  lemma {:induction false} PlacesDistinct(rows: seq<Row>, base: seq<Row>, cl: seq<Cluster>)
    requires Coherent(rows) && (forall row | row in base :: row in rows) && PairwiseApart(cl)
    requires forall cu | cu in cl :: cu.row in rows && cu == ClusterFor(BaseArrivals(base), cu.row)
    ensures DistinctPlaces(cl)
  {
    forall i, j | 0 <= i < |cl| && 0 <= j < |cl| && cl[i].basePos.Some? && cl[i].basePos == cl[j].basePos
      ensures i == j
    {
      SamePlace(rows, base, cl[i].row, cl[j].row);
    }
  }

  lemma {:induction false} ClusterForOwn(arrivals: seq<Arrival>, row: Row)
    ensures OwnCluster(ClusterFor(arrivals, row))
  {
  }

  /** Every group of the ordered clusters has one shape. */
  lemma {:induction false} GroupsShaped(c: Codec, base: seq<Row>, ours: seq<Row>, theirs: seq<Row>, p: Row)
    requires CanonInjective(c) && Coherent(base + ours + theirs) && OneShape(c, base + ours + theirs)
    ensures GroupShape(c, Group(Ordered(c, Build(c, Arrivals(base, ours, theirs))), p), p)
  {
    var cl := Build(c, Arrivals(base, ours, theirs));
    var g := Group(Ordered(c, cl), p);
    ClustersShaped(c, base, ours, theirs);
    OrderedSameClusters(c, cl);
    forall row | row in RowsOf(g) ensures row in base + ours + theirs {
      var i :| 0 <= i < |g| && RowsOf(g)[i] == row;
      assert g[i] in g;
    }
  }

  /** Two rows with one place in the base are versions of one row. */
  lemma {:induction false} SamePlace(rows: seq<Row>, base: seq<Row>, x: Row, y: Row)
    requires Coherent(rows) && x in rows && y in rows && forall row | row in base :: row in rows
    requires var pos := FirstPos(BaseArrivals(base), x); pos.Some? && pos == FirstPos(BaseArrivals(base), y)
    ensures SameRow(x, y)
  {
    FirstPosNames(base, x);
    FirstPosNames(base, y);
    var at := base[FirstPos(BaseArrivals(base), x).value];
    assert at in rows;
    SameRowTransitive(rows, x, at, y);
  }

  /** The two emission orders of a merge and its mirror image. */
  lemma {:induction false} SwappedOrders(c: Codec, base: seq<Row>, ours: seq<Row>, theirs: seq<Row>)
    requires CanonInjective(c) && Coherent(base + ours + theirs)
    ensures var a, b := Ordered(c, Build(c, Arrivals(base, ours, theirs))),
        Ordered(c, Build(c, Arrivals(base, theirs, ours)));
      SameButTies(a, b) && forall p :: BaseLeads(Group(a, p)) && BaseLeads(Group(b, p))
  {
    var a, b := Build(c, Arrivals(base, ours, theirs)), Build(c, Arrivals(base, theirs, ours));
    SameClusters(c, base, ours, theirs);
    ClustersShaped(c, base, ours, theirs);
    OrderedSameButTies(c, a, b);
    forall p ensures BaseLeads(Group(Ordered(c, a), p)) && BaseLeads(Group(Ordered(c, b), p)) {
      OrderedBaseLeads(c, a, p);
      OrderedBaseLeads(c, b, p);
    }
  }

  /** Swapping the sides changes nothing when the groups that are left apart stand in the same order. */
  lemma {:induction false} SwapsAlike(c: Codec, base: seq<Row>, ours: seq<Row>, theirs: seq<Row>)
    requires CanonInjective(c) && Coherent(base + ours + theirs) && OneShape(c, base + ours + theirs)
    requires SameUnfolded(Ordered(c, Build(c, Arrivals(base, ours, theirs))),
        Ordered(c, Build(c, Arrivals(base, theirs, ours))))
    ensures Merged(c, base, ours, theirs) == Merged(c, base, theirs, ours)
  {
    var a, b := Ordered(c, Build(c, Arrivals(base, ours, theirs))), Ordered(c, Build(c, Arrivals(base, theirs, ours)));
    SwappedOrders(c, base, ours, theirs);
    forall p | p in Contents(a) ensures GroupShape(c, Group(a, p), p) {
      GroupsShaped(c, base, ours, theirs, p);
    }
    SettleSame(c, a, b);
  }

  /** ORDER-INDEPENDENT: merging the same boards with the sides swapped gives the same rows in the same order.
      Versions must be coherent, and a tie between new rows of equal content must be one the merge folds. */
  lemma {:induction false} OrderIndependent(c: Codec, base: seq<Row>, ours: seq<Row>, theirs: seq<Row>)
    requires CanonInjective(c) && Coherent(base + ours + theirs) && OneShape(c, base + ours + theirs)
    requires TiesFold(Ordered(c, Build(c, Arrivals(base, ours, theirs))))
    ensures Merged(c, base, ours, theirs) == Merged(c, base, theirs, ours)
  {
    SwappedOrders(c, base, ours, theirs);
    FoldedTies(Ordered(c, Build(c, Arrivals(base, ours, theirs))), Ordered(c, Build(c, Arrivals(base, theirs, ours))));
    SwapsAlike(c, base, ours, theirs);
  }

  lemma {:induction false} SameClusters(c: Codec, base: seq<Row>, ours: seq<Row>, theirs: seq<Row>)
    requires CanonInjective(c) && Coherent(base + ours + theirs)
    ensures multiset(Build(c, Arrivals(base, ours, theirs))) == multiset(Build(c, Arrivals(base, theirs, ours)))
  {
    SwapSides(base, ours, theirs);
    ClusterSet(c, base, ours, theirs);
    ClusterSet(c, base, theirs, ours);
    var rows, swapped := base + ours + theirs, base + theirs + ours;
    forall row ensures Latest(c, rows, row) <==> Latest(c, swapped, row) {
    }
    SameElementsSameMultiset(Build(c, Arrivals(base, ours, theirs)), Build(c, Arrivals(base, theirs, ours)));
  }

  /** The newest version of every row is what the result shows, and nothing else is. */
  lemma {:induction false} LatestVersionsShown(c: Codec, base: seq<Row>, ours: seq<Row>, theirs: seq<Row>, p: Row)
    requires CanonInjective(c) && Coherent(base + ours + theirs)
    ensures (exists out :: out in Merged(c, base, ours, theirs) && Payload(out) == p)
       <==> (exists row :: Latest(c, base + ours + theirs, row) && Payload(row) == p)
  {
    var rows := base + ours + theirs;
    var cl := Build(c, Arrivals(base, ours, theirs));
    ClusterSet(c, base, ours, theirs);
    assert (exists cu :: cu in cl && Payload(cu.row) == p)
        <==> (exists row :: Latest(c, rows, row) && Payload(row) == p) by {
      if row :| Latest(c, rows, row) && Payload(row) == p {
        var cu := ClusterFor(BaseArrivals(base), row);
        assert cu.row == row;
        assert cu in cl;
      }
    }
    ResultContents(c, cl, p);
  }

  lemma {:induction false} ResultContents(c: Codec, cl: seq<Cluster>, p: Row)
    ensures (exists out :: out in Settle(c, Ordered(c, cl)) && Payload(out) == p)
        <==> (exists cu :: cu in cl && Payload(cu.row) == p)
  {
    OrderedSameClusters(c, cl);
    SettleContents(c, Ordered(c, cl));
  }
}
