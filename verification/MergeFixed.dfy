/** Boards with edits and no collisions: exactly when merging a side in again changes nothing. */
module MergeFixed {
  import opened Prelude
  import opened BoardRows
  import opened MergeSpec
  import opened MergeLossless
  import opened MergeVersions
  import opened MergeIds
  import opened MergeSymmetry
  import opened MergeTies
  import opened MergePrefixed
  import opened MergeLimits
  import opened MergeThin
  import opened MergeFolds

  // ---------------------------------------------------------------- boards where no id is disputed

  /** Each cluster was seen under its own id only, and no other cluster has it. */
  ghost predicate OwnIds(ordered: seq<Cluster>) {
    && NoDuplicates(ordered) && (forall cu | cu in ordered :: OwnCluster(cu))
    && forall x, y, id | x in ordered && y in ordered && id in ClusterIds(x) && id in ClusterIds(y) :: x == y
  }

  /** The boards this module is about. */
  ghost predicate Undisputed(c: Codec, rows: seq<Row>) {
    CanonInjective(c) && Coherent(rows) && OneRowPerId(rows)
  }

  lemma {:induction false} OwnIdsHold(c: Codec, base: seq<Row>, ours: seq<Row>, theirs: seq<Row>)
    requires Undisputed(c, base + ours + theirs)
    ensures OwnIds(Ordered(c, Build(c, Arrivals(base, ours, theirs))))
  {
    hide *;
    var cl := Build(c, Arrivals(base, ours, theirs));
    ClusterFacts(c, base, ours, theirs);
    OrderedSameClusters(c, cl);
    MergeCanonical.OrderedNoDuplicates(c, cl);
    forall x, y, id | x in cl && y in cl && id in ClusterIds(x) && id in ClusterIds(y) ensures x == y {
      SameIdSameCluster(base + ours + theirs, cl, x, y, id);
    }
    OwnIdsAre(Ordered(c, cl));
  }

  lemma {:induction false} OwnIdsAre(ordered: seq<Cluster>)
    requires NoDuplicates(ordered) && forall cu | cu in ordered :: OwnCluster(cu)
    requires forall x, y, id | x in ordered && y in ordered && id in ClusterIds(x) && id in ClusterIds(y) :: x == y
    ensures OwnIds(ordered)
  {
  }

  /** What the clusters of such a board are. */
  lemma {:induction false} ClusterFacts(c: Codec, base: seq<Row>, ours: seq<Row>, theirs: seq<Row>)
    requires Undisputed(c, base + ours + theirs)
    ensures OneRowPerId(base + ours + theirs)
    ensures var cl := Build(c, Arrivals(base, ours, theirs));
      && NoDuplicates(cl) && PairwiseApart(cl) && DistinctPlaces(cl)
      && (forall cu | cu in cl :: OwnCluster(cu) && cu.row in base + ours + theirs)
      && forall cu :: cu in cl <==>
          Latest(c, base + ours + theirs, cu.row) && cu == ClusterFor(BaseArrivals(base), cu.row)
  {
    ClusterSet(c, base, ours, theirs);
    ClustersShaped(c, base, ours, theirs);
    PairsApart(Build(c, Arrivals(base, ours, theirs)));
  }

  lemma {:induction false} PairsApart(cl: seq<Cluster>)
    requires forall i, j | 0 <= i < j < |cl| :: !SameRow(cl[i].row, cl[j].row)
    ensures PairwiseApart(cl)
  {
    forall i, j | 0 <= i < |cl| && 0 <= j < |cl| && i != j ensures !SameRow(cl[i].row, cl[j].row) {
      SameRowSwaps(cl[i].row, cl[j].row);
    }
  }

  lemma {:induction false} SameIdSameCluster(rows: seq<Row>, cl: seq<Cluster>, x: Cluster, y: Cluster, id: Id)
    requires OneRowPerId(rows) && PairwiseApart(cl) && x in cl && y in cl && x.row in rows && y.row in rows
    requires OwnCluster(x) && OwnCluster(y) && id in ClusterIds(x) && id in ClusterIds(y)
    ensures x == y
  {
    assert RowKey(x.row) == RowKey(y.row);
    var i :| 0 <= i < |cl| && cl[i] == x;
    var j :| 0 <= j < |cl| && cl[j] == y;
  }

  lemma {:induction false} Uncontested(ordered: seq<Cluster>, id: Id)
    requires OwnIds(ordered)
    ensures !Contested(ordered, id)
  {
  }

  /** With no id disputed only a derived id makes a group fold. */
  lemma {:induction false} FoldsByDerived(ordered: seq<Cluster>, g: seq<Cluster>)
    requires OwnIds(ordered)
    ensures Collapses(ordered, g) <==> |g| > 1 && AnyDerived(GroupIds(g))
  {
    var ids := GroupIds(g);
    if ids != [] {
      Uncontested(ordered, ids[0]);
      NotAllContested(ordered, ids, ids[0]);
    }
  }

  // ---------------------------------------------------------------- every entry gets its first choice

  /** The row an entry becomes when nobody claimed one of its ids. */
  function Final(e: Entry): Row {
    WithId(e.row, OwnChoice(e, {}))
  }

  ghost predicate Selfsame(e: Entry) {
    (e.baseId.Some? ==> e.baseId.value in e.ids) && (RowId(e.row).Some? ==> RowId(e.row).value in e.ids)
  }

  ghost predicate Separate(es: seq<Entry>) {
    && (forall e | e in es :: Selfsame(e))
    && forall s, t, x | 0 <= s < t < |es| && x in es[s].ids :: x !in es[t].ids
  }

  lemma {:induction false} FirstFree(ids: seq<Id>, claimed: set<Id>)
    requires forall x | x in ids :: x !in claimed
    ensures FirstUnclaimed(ids, claimed) == FirstUnclaimed(ids, {})
  {
  }

  lemma {:induction false} FreeChoice(c: Codec, e: Entry, claimed: set<Id>, taken: set<Id>)
    requires Selfsame(e) && forall x | x in e.ids :: x !in claimed
    ensures Choice(c, e, claimed, taken) == OwnChoice(e, {})
    ensures OwnChoice(e, {}).Some? ==> OwnChoice(e, {}).value in e.ids
  {
    SortPermutes(IdLe, e.ids);
    FirstFree(SortBy(IdLe, e.ids), claimed);
    SomeMember(e.ids);
  }

  lemma {:induction false} FreeAssign(c: Codec, es: seq<Entry>, claimed: set<Id>, taken: set<Id>)
    requires Separate(es) && forall e, x | e in es && x in e.ids :: x !in claimed
    ensures Assign(c, es, claimed, taken) == MapSeq(Final, es)
  {
    if es != [] {
      var id := Choice(c, es[0], claimed, taken);
      assert es[0] in es;
      FreeChoice(c, es[0], claimed, taken);
      SeparateTail(es, claimed, id);
      FreeAssign(c, es[1..], Added(claimed, id), Added(taken, id));
      HeadSplit(MapSeq(Final, es));
      assert MapSeq(Final, es)[1..] == MapSeq(Final, es[1..]);
    }
  }

  lemma {:induction false} SeparateTail(es: seq<Entry>, claimed: set<Id>, id: Option<Id>)
    requires Separate(es) && es != [] && (id.Some? ==> id.value in es[0].ids)
    requires forall e, x | e in es && x in e.ids :: x !in claimed
    ensures Separate(es[1..]) && forall e, x | e in es[1..] && x in e.ids :: x !in Added(claimed, id)
  {
    forall e, x | e in es[1..] && x in e.ids ensures x !in Added(claimed, id) {
      var t :| 0 <= t < |es[1..]| && es[1..][t] == e;
      assert es[t + 1] == e && e in es;
    }
  }

  // ---------------------------------------------------------------- entries share no id

  lemma {:induction false} SelfsameSingle(cu: Cluster)
    ensures Selfsame(Single(cu))
  {
  }

  lemma {:induction false} SelfsameFolded(g: seq<Cluster>)
    requires g != []
    ensures Selfsame(Entry(g[0].row, GroupIds(g), g[0].baseId, |g|))
  {
    assert g[0] in g;
    GroupIdsHold(g);
    if g[0].baseId.Some? {
      assert g[0].baseId.value in AllIds(g);
    }
    if RowId(g[0].row).Some? {
      assert RowId(g[0].row).value in AllIds(g);
    }
  }

  lemma {:induction false} SelfsameEntry(ordered: seq<Cluster>, g: seq<Cluster>, k: nat)
    requires k < |EntriesOf(ordered, g)|
    ensures Selfsame(EntriesOf(ordered, g)[k])
  {
    hide Selfsame, GroupIds, Collapses, Single;
    SelfsameFolded(g);
    SelfsameSingle(g[k]);
  }

  /** A common id puts two entries in one place. */
  lemma {:induction false} CommonId(ordered: seq<Cluster>, keys: seq<Row>, s: nat, t: nat, x: Id)
    requires OwnIds(ordered) && NoDuplicates(keys) && s < |Logical(ordered, keys)| && t < |Logical(ordered, keys)|
    requires x in Logical(ordered, keys)[s].ids && x in Logical(ordered, keys)[t].ids
    ensures s == t
  {
    hide *;
    var p, cu := EntryContent(ordered, keys, s, x);
    var q, du := EntryContent(ordered, keys, t, x);
    SoleCarrier(ordered, cu, du, x);
    var r, i, j := SameContentPlaces(ordered, keys, s, t);
    CommonInGroup(ordered, r, i, j, x);
  }

  lemma {:induction false} SoleCarrier(ordered: seq<Cluster>, x: Cluster, y: Cluster, id: Id)
    requires OwnIds(ordered) && x in ordered && y in ordered && id in ClusterIds(x) && id in ClusterIds(y)
    ensures x == y
  {
  }

  lemma {:induction false} CommonInGroup(ordered: seq<Cluster>, p: Row, i: nat, j: nat, x: Id)
    requires OwnIds(ordered)
    requires i < |EntriesOf(ordered, Group(ordered, p))| && j < |EntriesOf(ordered, Group(ordered, p))|
    requires x in EntriesOf(ordered, Group(ordered, p))[i].ids && x in EntriesOf(ordered, Group(ordered, p))[j].ids
    ensures i == j
  {
    var g := Group(ordered, p);
    FilterNoDuplicates(PaysAs(p), ordered);
    if !Collapses(ordered, g) {
      assert g[i] in g && g[j] in g;
      SoleCarrier(ordered, g[i], g[j], x);
    }
  }

  lemma {:induction false} EntriesSeparate(ordered: seq<Cluster>, keys: seq<Row>)
    requires OwnIds(ordered) && NoDuplicates(keys)
    ensures Separate(Logical(ordered, keys))
  {
    var es := Logical(ordered, keys);
    forall e | e in es ensures Selfsame(e) {
      var t :| 0 <= t < |es| && es[t] == e;
      var i, k := EntryPlace(ordered, keys, t);
      SelfsameEntry(ordered, Group(ordered, keys[i]), k);
    }
    forall s, t, x | 0 <= s < t < |es| && x in es[s].ids ensures x !in es[t].ids {
      if x in es[t].ids {
        CommonId(ordered, keys, s, t, x);
      }
    }
  }

  /** Nothing is renumbered: every entry takes its first choice. */
  lemma {:induction false} SettleFinal(c: Codec, ordered: seq<Cluster>)
    requires OwnIds(ordered)
    ensures Settle(c, ordered) == MapSeq(Final, Logical(ordered, Contents(ordered)))
  {
    EntriesSeparate(ordered, Contents(ordered));
    FreeAssign(c, Logical(ordered, Contents(ordered)), {}, InitialTaken(ordered));
  }

  // ---------------------------------------------------------------- what an entry becomes

  lemma {:induction false} OwnIdOf(cu: Cluster)
    requires OwnCluster(cu)
    ensures ClusterIds(cu) == Listed(RowId(cu.row)) && (cu.baseId.Some? ==> cu.baseId == RowId(cu.row))
  {
    GroupIdsHold([cu]);
    assert [cu][0] in [cu];
    if RowId(cu.row).Some? {
      OneIdOnly(cu);
    } else {
      NoIdAtAll(cu);
    }
  }

  /** A cluster of its own becomes its row. */
  lemma {:induction false} FinalSingle(cu: Cluster)
    requires OwnCluster(cu)
    ensures Final(Single(cu)) == cu.row
  {
    OwnIdOf(cu);
    SortedStays(IdLe, ClusterIds(cu));
  }

  /** A folded group becomes the row of one of its clusters. */
  lemma {:induction false} FinalFolded(ordered: seq<Cluster>, p: Row) returns (cu: Cluster)
    requires OwnIds(ordered) && Collapses(ordered, Group(ordered, p))
    ensures cu in Group(ordered, p) && |EntriesOf(ordered, Group(ordered, p))| == 1
    ensures cu.row == Final(EntriesOf(ordered, Group(ordered, p))[0]) && RowId(cu.row).Some?
    ensures RowId(cu.row) == OwnChoice(EntriesOf(ordered, Group(ordered, p))[0], {})
  {
    hide *;
    var g := Group(ordered, p);
    FoldedOne(ordered, g);
    var e := EntriesOf(ordered, g)[0];
    SelfsameEntry(ordered, g, 0);
    SomeChoice(e);
    cu := ChosenMember(ordered, p, OwnChoice(e, {}).value);
    ChosenIsFinal(cu.row, e);
  }

  lemma {:induction false} FoldedOne(ordered: seq<Cluster>, g: seq<Cluster>)
    requires Collapses(ordered, g)
    ensures EntriesOf(ordered, g) == [Entry(g[0].row, GroupIds(g), g[0].baseId, |g|)] && GroupIds(g) != [] && g != []
  {
    hide AnyDerived, AllContested, GroupIds;
  }

  lemma {:induction false} ChosenMember(ordered: seq<Cluster>, p: Row, y: Id) returns (cu: Cluster)
    requires OwnIds(ordered) && y in GroupIds(Group(ordered, p))
    ensures cu in Group(ordered, p) && RowId(cu.row) == Some(y)
    ensures Payload(cu.row) == Payload(Group(ordered, p)[0].row)
  {
    var g := Group(ordered, p);
    assert y in AllIds(g);
    cu :| cu in g && y in ClusterIds(cu);
    assert g[0] in g;
    hide ClusterIds, Payload;
    assert OwnCluster(cu);
  }

  lemma {:induction false} ChosenIsFinal(row: Row, e: Entry)
    requires OwnChoice(e, {}) == RowId(row) && RowId(row).Some? && Payload(row) == Payload(e.row)
    ensures row == Final(e)
  {
    hide OwnChoice;
  }

  lemma {:induction false} SomeChoice(e: Entry)
    requires Selfsame(e) && e.ids != []
    ensures OwnChoice(e, {}).Some? && OwnChoice(e, {}).value in e.ids
  {
    SortPermutes(IdLe, e.ids);
    SomeMember(e.ids);
  }

  // ---------------------------------------------------------------- the rows of the first merge

  /** Every row of the result is the latest version of some row. */
  lemma {:induction false} ResultRow(ordered: seq<Cluster>, keys: seq<Row>, t: nat) returns (cu: Cluster)
    requires OwnIds(ordered) && t < |Logical(ordered, keys)|
    ensures cu in ordered && cu.row == Final(Logical(ordered, keys)[t])
  {
    var i, k := EntryPlace(ordered, keys, t);
    var g := Group(ordered, keys[i]);
    if Collapses(ordered, g) {
      cu := FinalFolded(ordered, keys[i]);
    } else {
      cu := g[k];
      assert g[k] in g;
      FinalSingle(cu);
    }
  }

  lemma {:induction false} ResultRows(c: Codec, ordered: seq<Cluster>)
    requires OwnIds(ordered)
    ensures forall row | row in Settle(c, ordered) :: exists cu :: cu in ordered && cu.row == row
  {
    var es, m := Logical(ordered, Contents(ordered)), Settle(c, ordered);
    SettleFinal(c, ordered);
    forall row | row in m ensures exists cu :: cu in ordered && cu.row == row {
      var t :| 0 <= t < |m| && m[t] == row;
      var cu := ResultRow(ordered, Contents(ordered), t);
    }
  }

  // ---------------------------------------------------------------- the clusters of the second merge

  /** A row that the base or the side still has in some version is there in its latest. */
  ghost predicate NothingStale(cl: seq<Cluster>, sides: seq<Row>, rows: seq<Row>) {
    forall cu, r | cu in cl && r in sides && RowKey(r) == RowKey(cu.row) :: cu.row in rows
  }

  lemma {:induction false} Covering(c: Codec, base: seq<Row>, ours: seq<Row>, theirs: seq<Row>, r: Row)
    returns (cu: Cluster)
    requires Coherent(base + ours + theirs) && r in base + ours + theirs
    ensures cu in Build(c, Arrivals(base, ours, theirs)) && SameRow(cu.row, r)
    ensures Latest(c, base + ours + theirs, cu.row)
  {
    var arrivals, cl := Arrivals(base, ours, theirs), Build(c, Arrivals(base, ours, theirs));
    AllSummarized(c, base, ours, theirs);
    RowsInArrivals(base, ours, theirs);
    RowsInMembers(arrivals, r);
    var a :| a in arrivals && a.row == r;
    var i :| 0 <= i < |cl| && SameRow(cl[i].row, a.row);
    cu := cl[i];
  }

  lemma {:induction false} LatestThins(c: Codec, rows: seq<Row>, fewer: seq<Row>, r: Row, top: Row)
    requires CanonInjective(c) && (forall x | x in fewer :: x in rows) && r in fewer
    requires Latest(c, rows, top) && SameRow(top, r) && top in fewer
    ensures Latest(c, fewer, r) <==> Latest(c, rows, r)
  {
    if Latest(c, fewer, r) {
      SameRowSwaps(top, r);
      WinsAntisymmetric(c, top, r);
    }
  }

  /** Among fewer rows the same ones are latest, as long as no latest version is gone. */
  lemma {:induction false} SameLatest(c: Codec, base: seq<Row>, ours: seq<Row>, theirs: seq<Row>, m: seq<Row>, r: Row)
    requires Undisputed(c, base + ours + theirs) && r in base + m + theirs
    requires forall row | row in m :: exists cu :: cu in Build(c, Arrivals(base, ours, theirs)) && cu.row == row
    requires NothingStale(Build(c, Arrivals(base, ours, theirs)), base + theirs, base + m + theirs)
    ensures r in base + ours + theirs
    ensures Latest(c, base + m + theirs, r) <==> Latest(c, base + ours + theirs, r)
  {
    var rows, fewer := base + ours + theirs, base + m + theirs;
    FewerRows(c, base, ours, theirs, m);
    if r in base + theirs {
      var cu := Covering(c, base, ours, theirs, r);
      assert RowKey(r) == RowKey(cu.row);
      LatestThins(c, rows, fewer, r, cu.row);
    } else {
      assert r in m;
      var cu :| cu in Build(c, Arrivals(base, ours, theirs)) && cu.row == r;
      ClusterFacts(c, base, ours, theirs);
    }
  }

  lemma {:induction false} FewerRows(c: Codec, base: seq<Row>, ours: seq<Row>, theirs: seq<Row>, m: seq<Row>)
    requires Undisputed(c, base + ours + theirs)
    requires forall row | row in m :: exists cu :: cu in Build(c, Arrivals(base, ours, theirs)) && cu.row == row
    ensures forall x | x in base + m + theirs :: x in base + ours + theirs
    ensures Undisputed(c, base + m + theirs)
  {
    ClusterFacts(c, base, ours, theirs);
    forall x | x in base + m + theirs ensures x in base + ours + theirs {
      if x in m {
        var cu :| cu in Build(c, Arrivals(base, ours, theirs)) && cu.row == x;
      }
    }
  }

  function InRows(rows: seq<Row>): Cluster -> bool {
    (cu: Cluster) => cu.row in rows
  }

  /** The second merge has the first one's clusters, less those whose row is gone. */
  lemma {:induction false} SecondClusters(c: Codec, base: seq<Row>, ours: seq<Row>, theirs: seq<Row>, m: seq<Row>)
    requires Undisputed(c, base + ours + theirs)
    requires forall row | row in m :: exists cu :: cu in Build(c, Arrivals(base, ours, theirs)) && cu.row == row
    requires NothingStale(Build(c, Arrivals(base, ours, theirs)), base + theirs, base + m + theirs)
    ensures Undisputed(c, base + m + theirs)
    ensures var cl, dl := Build(c, Arrivals(base, ours, theirs)), Build(c, Arrivals(base, m, theirs));
      multiset(dl) == multiset(Filter(InRows(base + m + theirs), cl))
      && forall cu :: cu in dl <==> cu in cl && cu.row in base + m + theirs
  {
    hide Undisputed, NothingStale, PairwiseApart, DistinctPlaces, OneRowPerId, OwnCluster, ClusterFor, Latest, Build;
    var cl, dl := Build(c, Arrivals(base, ours, theirs)), Build(c, Arrivals(base, m, theirs));
    FewerRows(c, base, ours, theirs, m);
    ClusterFacts(c, base, ours, theirs);
    ClusterFacts(c, base, m, theirs);
    forall cu ensures cu in dl <==> cu in cl && cu.row in base + m + theirs {
      if cu.row in base + m + theirs {
        SameLatest(c, base, ours, theirs, m, cu.row);
      }
    }
    var keep := InRows(base + m + theirs);
    FilterNoDuplicates(keep, cl);
    SameElementsSameMultiset(dl, Filter(keep, cl));
  }

  // ---------------------------------------------------------------- a group against what is left of it

  lemma {:induction false} BestStays(a: seq<Id>, b: seq<Id>, y: Id)
    requires (forall x | x in b :: x in a) && y in b && FirstUnclaimed(SortBy(IdLe, a), {}) == Some(y)
    ensures FirstUnclaimed(SortBy(IdLe, b), {}) == Some(y)
  {
    IdLeTotalOrder();
    hide IdLe, SortBy, FirstUnclaimed;
    BestFree(a, {});
    BestFree(b, {});
  }

  /** While the id a folded group took is still there, what is left of the group becomes the same row. */
  lemma {:induction false} FoldedAgain(g: seq<Cluster>, h: seq<Cluster>, p: Row, y: Id)
    requires g != [] && h != [] && p.Obj? && g[0].baseId == h[0].baseId
    requires Payload(g[0].row) == p && Payload(h[0].row) == p
    requires OwnChoice(Folded(g), {}) == Some(y) && y in GroupIds(h) && forall x | x in GroupIds(h) :: x in GroupIds(g)
    ensures Final(Folded(h)) == Final(Folded(g))
  {
    hide GroupIds;
    if g[0].baseId.None? {
      BestStays(GroupIds(g), GroupIds(h), y);
    }
  }

  lemma {:induction false} FewerIds(g: seq<Cluster>, h: seq<Cluster>)
    requires forall x | x in h :: x in g
    ensures forall x | x in GroupIds(h) :: x in GroupIds(g)
  {
    forall x | x in GroupIds(h) ensures x in GroupIds(g) {
      GroupIdsFrom(h, x);
      GroupIdsFrom(g, x);
    }
  }

  /** One group of the first merge and what the second merge sees of it. */
  ghost predicate LeftOf(a: seq<Cluster>, b: seq<Cluster>, p: Row, keep: Cluster -> bool) {
    var g, h := Group(a, p), Group(b, p);
    && BaseLeads(g) && BaseLeads(h) && Filter(InBase, g) == Filter(InBase, h)
    && (forall x :: x in h <==> x in g && keep(x))
    && (!Collapses(a, g) ==> h == g)
  }

  /** The second merge still sees enough of every folded group to fold it again. */
  ghost predicate FoldsAgain(a: seq<Cluster>, keep: Cluster -> bool) {
    forall p | p in Contents(a) && Collapses(a, Group(a, p)) :: LeftFolds(Filter(keep, Group(a, p)))
  }

  ghost predicate LeftFolds(g: seq<Cluster>) {
    |g| <= 1 || AnyDerived(GroupIds(g))
  }

  lemma {:induction false} SameSize(g: seq<Cluster>, h: seq<Cluster>)
    requires NoDuplicates(g) && NoDuplicates(h) && forall x :: x in g <==> x in h
    ensures |g| == |h| && (LeftFolds(g) <==> LeftFolds(h))
  {
    SameElementsSameMultiset(g, h);
    SameMembers(g, h);
    FewerIds(g, h);
    FewerIds(h, g);
  }

  /** What is left of a folded group folds exactly when it still can. */
  lemma {:induction false} LeftEntries(a: seq<Cluster>, b: seq<Cluster>, p: Row, keep: Cluster -> bool)
    requires OwnIds(a) && OwnIds(b) && LeftOf(a, b, p, keep) && Group(b, p) != []
    ensures |EntriesOf(b, Group(b, p))| == 1 <==> LeftFolds(Filter(keep, Group(a, p)))
  {
    var g, h := Group(a, p), Group(b, p);
    FilterNoDuplicates(PaysAs(p), a);
    FilterNoDuplicates(PaysAs(p), b);
    FilterNoDuplicates(keep, g);
    SameSize(h, Filter(keep, g));
    FoldsByDerived(b, h);
  }

  lemma {:induction false} LeftFinals(a: seq<Cluster>, b: seq<Cluster>, p: Row, keep: Cluster -> bool)
    requires OwnIds(a) && OwnIds(b) && LeftOf(a, b, p, keep)
    requires Collapses(a, Group(a, p)) ==> LeftFolds(Filter(keep, Group(a, p)))
    requires forall x | x in Group(a, p) && Collapses(a, Group(a, p))
      && x.row == Final(EntriesOf(a, Group(a, p))[0]) :: keep(x)
    ensures MapSeq(Final, EntriesOf(b, Group(b, p))) == MapSeq(Final, EntriesOf(a, Group(a, p)))
  {
    var g, h := Group(a, p), Group(b, p);
    FoldsByDerived(a, g);
    FoldsByDerived(b, h);
    if Collapses(a, g) {
      var cu := FinalFolded(a, p);
      assert cu in h;
      LeftEntries(a, b, p, keep);
      OneFinal(a, b, p, cu);
    }
  }

  lemma {:induction false} GroupShows(a: seq<Cluster>, p: Row)
    requires OwnIds(a)
    ensures forall x | x in Group(a, p) :: x in a && Payload(x.row) == p && OwnCluster(x)
    ensures Group(a, p) != [] ==> Payload(Group(a, p)[0].row) == p
  {
    assert Group(a, p) != [] ==> Group(a, p)[0] in Group(a, p);
  }

  lemma {:induction false} FoldedBoth(a: seq<Cluster>, b: seq<Cluster>, p: Row, cu: Cluster, y: Id)
    requires OwnIds(a) && OwnIds(b) && Group(a, p) != []
    requires BaseLeads(Group(a, p)) && BaseLeads(Group(b, p))
    requires Filter(InBase, Group(a, p)) == Filter(InBase, Group(b, p))
    requires (forall x | x in Group(b, p) :: x in Group(a, p)) && cu in Group(b, p)
    requires RowId(cu.row) == Some(y) && OwnChoice(Folded(Group(a, p)), {}) == Some(y) && Group(b, p) != []
    ensures Final(Folded(Group(b, p))) == Final(Folded(Group(a, p)))
  {
    hide *;
    GroupShows(a, p);
    GroupShows(b, p);
    SameLeader(Group(a, p), Group(b, p));
    FewerIds(Group(a, p), Group(b, p));
    IdInGroup(Group(b, p), cu, y);
    FoldedAgain(Group(a, p), Group(b, p), p, y);
  }

  lemma {:induction false} IdInGroup(g: seq<Cluster>, cu: Cluster, y: Id)
    requires cu in g && RowId(cu.row) == Some(y)
    ensures y in GroupIds(g) && Payload(cu.row).Obj?
  {
    GroupIdsHold(g);
    GroupIdsFrom(g, y);
  }

  lemma {:induction false} OneFinal(a: seq<Cluster>, b: seq<Cluster>, p: Row, cu: Cluster)
    requires OwnIds(a) && OwnIds(b) && Collapses(a, Group(a, p)) && |EntriesOf(b, Group(b, p))| == 1
    requires BaseLeads(Group(a, p)) && BaseLeads(Group(b, p)) && Group(a, p) != []
    requires Filter(InBase, Group(a, p)) == Filter(InBase, Group(b, p))
    requires (forall x | x in Group(b, p) :: x in Group(a, p)) && cu in Group(b, p)
    requires cu.row == Final(Folded(Group(a, p))) && RowId(cu.row).Some?
    requires RowId(cu.row) == OwnChoice(Folded(Group(a, p)), {})
    ensures MapSeq(Final, EntriesOf(b, Group(b, p))) == MapSeq(Final, EntriesOf(a, Group(a, p)))
  {
    hide *;
    FoldedIsOne(a, Group(a, p));
    MapOne(Folded(Group(a, p)));
    GroupShows(b, p);
    if Collapses(b, Group(b, p)) {
      FoldedIsOne(b, Group(b, p));
      InSome(Group(b, p), cu);
      FoldedBoth(a, b, p, cu, RowId(cu.row).value);
      MapOne(Folded(Group(b, p)));
    } else {
      PlainGroup(b, p);
      OnlyMember(Group(b, p), cu);
      SingleEntry(b, cu);
      FinalSingle(cu);
      MapOne(Single(cu));
    }
  }

  lemma {:induction false} MapOne(e: Entry)
    ensures MapSeq(Final, [e]) == [Final(e)]
  {
  }

  lemma {:induction false} InSome(g: seq<Cluster>, cu: Cluster)
    requires cu in g
    ensures g != []
  {
  }

  lemma {:induction false} OnlyMember(g: seq<Cluster>, cu: Cluster)
    requires cu in g && |g| == 1
    ensures g == [cu]
  {
  }

  lemma {:induction false} LogicalFinals(a: seq<Cluster>, b: seq<Cluster>, keys: seq<Row>)
    requires forall p | p in keys ::
      MapSeq(Final, EntriesOf(b, Group(b, p))) == MapSeq(Final, EntriesOf(a, Group(a, p)))
    ensures MapSeq(Final, Logical(b, keys)) == MapSeq(Final, Logical(a, keys))
  {
    if keys != [] {
      var front, last := keys[..|keys| - 1], keys[|keys| - 1];
      LogicalFinals(a, b, front);
      MapAppend(Final, Logical(a, front), EntriesOf(a, Group(a, last)));
      MapAppend(Final, Logical(b, front), EntriesOf(b, Group(b, last)));
    }
  }

  // ---------------------------------------------------------------- clusters in order of their ids

  function ClusterKey(cu: Cluster): Key {
    RowKey(cu.row)
  }

  function ArrivalKey(a: Arrival): Key {
    RowKey(a.row)
  }

  lemma {:induction false} KeyStays(c: Codec, cu: Cluster, a: Arrival)
    requires SameRow(cu.row, a.row)
    ensures RowKey(NoteRow(c, cu, a).row) == RowKey(a.row)
  {
    if cu.row.Obj? && a.row.Obj? {
      MergePairCarries(c, cu.row, a.row);
    }
  }

  lemma {:induction false} AbsorbKeys(c: Codec, cl: seq<Cluster>, a: Arrival)
    requires forall i | 0 <= i < |cl| && RowKey(cl[i].row) == RowKey(a.row) :: SameRow(cl[i].row, a.row)
    ensures var keys := MapSeq(ClusterKey, cl);
      MapSeq(ClusterKey, Absorb(c, cl, a)) == if RowKey(a.row) in keys then keys else keys + [RowKey(a.row)]
  {
    var hit, keys := FindHit(cl, a.row), MapSeq(ClusterKey, cl);
    var was := if hit.Some? then cl[hit.value] else NewCluster(a.row);
    OpensSame(a.row);
    KeyStays(c, was, a);
    hide NoteRow, FindHit, SameRow, RowKey;
    if hit.Some? {
      SameKeyThere(cl, a.row, hit.value);
      assert MapSeq(ClusterKey, Absorb(c, cl, a)) == keys;
    } else {
      NoKeyThere(cl, a.row);
      assert MapSeq(ClusterKey, Absorb(c, cl, a)) == keys + [RowKey(a.row)];
    }
  }

  lemma {:induction false} OpensSame(row: Row)
    ensures SameRow(NewCluster(row).row, row)
  {
  }

  lemma {:induction false} SameKeyThere(cl: seq<Cluster>, row: Row, i: nat)
    requires i < |cl| && SameRow(cl[i].row, row)
    ensures RowKey(cl[i].row) == RowKey(row) && RowKey(row) in MapSeq(ClusterKey, cl)
  {
    assert MapSeq(ClusterKey, cl)[i] == RowKey(row);
  }

  lemma {:induction false} KeyOwner(cl: seq<Cluster>, k: Key)
    ensures k in MapSeq(ClusterKey, cl) ==> exists i :: 0 <= i < |cl| && RowKey(cl[i].row) == k
  {
    if k in MapSeq(ClusterKey, cl) {
      var i :| 0 <= i < |cl| && MapSeq(ClusterKey, cl)[i] == k;
      assert RowKey(cl[i].row) == k;
    }
  }

  lemma {:induction false} NoKeyThere(cl: seq<Cluster>, row: Row)
    requires forall i | 0 <= i < |cl| && RowKey(cl[i].row) == RowKey(row) :: SameRow(cl[i].row, row)
    requires forall i | 0 <= i < |cl| :: !SameRow(cl[i].row, row)
    ensures RowKey(row) !in MapSeq(ClusterKey, cl)
  {
    KeyOwner(cl, RowKey(row));
  }

  /** The clusters stand in the order in which their ids first arrived. */
  lemma {:induction false} BuildKeys(c: Codec, rows: seq<Row>, arrivals: seq<Arrival>)
    requires Coherent(rows) && OneRowPerId(rows) && forall a | a in arrivals :: a.row in rows
    ensures MapSeq(ClusterKey, Build(c, arrivals)) == Distinct(MapSeq(ArrivalKey, arrivals))
  {
    hide *;
    if arrivals == [] {
      NoKeys(c);
    } else {
      var front, last := arrivals[..|arrivals| - 1], arrivals[|arrivals| - 1];
      LastSplit(arrivals);
      assert last in arrivals && forall a | a in front :: a in arrivals;
      BuildKeys(c, rows, front);
      BuiltRows(c, rows, front);
      LastKey(c, front, last);
      KeyIsRow(rows, Build(c, front), last);
      AbsorbKeys(c, Build(c, front), last);
      DistinctSnoc(MapSeq(ArrivalKey, front), RowKey(last.row));
    }
  }

  lemma {:induction false} KeyIsRow(rows: seq<Row>, cl: seq<Cluster>, a: Arrival)
    requires OneRowPerId(rows) && a.row in rows && forall i | 0 <= i < |cl| :: cl[i].row in rows
    ensures forall i | 0 <= i < |cl| && RowKey(cl[i].row) == RowKey(a.row) :: SameRow(cl[i].row, a.row)
  {
    hide RowKey, SameRow;
  }

  lemma {:induction false} NoKeys(c: Codec)
    ensures MapSeq(ClusterKey, Build(c, [])) == Distinct(MapSeq(ArrivalKey, []))
  {
  }

  lemma {:induction false} LastKey(c: Codec, front: seq<Arrival>, last: Arrival)
    ensures MapSeq(ArrivalKey, front + [last]) == MapSeq(ArrivalKey, front) + [RowKey(last.row)]
    ensures Build(c, front + [last]) == Absorb(c, Build(c, front), last)
  {
    MapAppend(ArrivalKey, front, [last]);
    assert MapSeq(ArrivalKey, [last]) == [RowKey(last.row)];
    BuildSnoc(c, front, last);
  }

  lemma {:induction false} BuiltRows(c: Codec, rows: seq<Row>, arrivals: seq<Arrival>)
    requires Coherent(rows) && forall a | a in arrivals :: a.row in rows
    ensures forall i | 0 <= i < |Build(c, arrivals)| :: Build(c, arrivals)[i].row in rows
  {
    var cl := Build(c, arrivals);
    BuildSummarizes(c, rows, arrivals);
    forall i | 0 <= i < |cl| ensures cl[i].row in rows {
      assert Latest(c, RowsIn(arrivals), cl[i].row);
      RowsInMembers(arrivals, cl[i].row);
    }
  }

  // ---------------------------------------------------------------- the second merge's emission order

  /** The second merge, seen from the first: what both know, and what the second no longer has. */
  ghost predicate Again(c: Codec, base: seq<Row>, ours: seq<Row>, theirs: seq<Row>, m: seq<Row>) {
    && Undisputed(c, base + ours + theirs) && m == Merged(c, base, ours, theirs)
    && NothingStale(Build(c, Arrivals(base, ours, theirs)), base + theirs, base + m + theirs)
  }

  lemma {:induction false} AgainFacts(c: Codec, base: seq<Row>, ours: seq<Row>, theirs: seq<Row>, m: seq<Row>)
    requires Again(c, base, ours, theirs, m)
    ensures var cl, dl := Build(c, Arrivals(base, ours, theirs)), Build(c, Arrivals(base, m, theirs));
      var keep := InRows(base + m + theirs);
      && OwnIds(Ordered(c, cl)) && OwnIds(Ordered(c, dl))
      && Undisputed(c, base + m + theirs) && multiset(dl) == multiset(Filter(keep, cl))
      && (forall cu :: cu in dl <==> cu in cl && cu.row in base + m + theirs)
      && m == MapSeq(Final, Logical(Ordered(c, cl), Contents(Ordered(c, cl))))
  {
    var a := Ordered(c, Build(c, Arrivals(base, ours, theirs)));
    OwnIdsHold(c, base, ours, theirs);
    SettleFinal(c, a);
    ResultRows(c, a);
    OrderedSameClusters(c, Build(c, Arrivals(base, ours, theirs)));
    SecondClusters(c, base, ours, theirs, m);
    OwnIdsHold(c, base, m, theirs);
  }

  /** Whatever the base knows is still there. */
  lemma {:induction false} BaseStays(c: Codec, base: seq<Row>, ours: seq<Row>, theirs: seq<Row>, m: seq<Row>,
          cu: Cluster)
    requires Again(c, base, ours, theirs, m)
    requires cu in Build(c, Arrivals(base, ours, theirs)) && InBase(cu)
    ensures cu.row in base + m + theirs
  {
    ClusterFacts(c, base, ours, theirs);
    FirstPosNames(base, cu.row);
    var at := base[FirstPos(BaseArrivals(base), cu.row).value];
    assert at in base + theirs && RowKey(at) == RowKey(cu.row);
  }

  lemma {:induction false} SecondTies(c: Codec, base: seq<Row>, ours: seq<Row>, theirs: seq<Row>, m: seq<Row>)
    requires Again(c, base, ours, theirs, m)
    ensures var a := Ordered(c, Build(c, Arrivals(base, ours, theirs)));
      var b := Ordered(c, Build(c, Arrivals(base, m, theirs)));
      SameButTies(Filter(InRows(base + m + theirs), a), b)
  {
    hide *;
    var cl, dl := Build(c, Arrivals(base, ours, theirs)), Build(c, Arrivals(base, m, theirs));
    var keep := InRows(base + m + theirs);
    AgainMeans(c, base, ours, theirs, m);
    AgainFacts(c, base, ours, theirs, m);
    ClusterFacts(c, base, ours, theirs);
    FewerPlaces(cl, keep);
    OrderedSameButTies(c, Filter(keep, cl), dl);
    OrderedThins(c, keep, cl);
  }

  lemma {:induction false} AgainMeans(c: Codec, base: seq<Row>, ours: seq<Row>, theirs: seq<Row>, m: seq<Row>)
    requires Again(c, base, ours, theirs, m)
    ensures Undisputed(c, base + ours + theirs) && CanonInjective(c)
  {
  }

  lemma {:induction false} FewerPlaces(cl: seq<Cluster>, keep: Cluster -> bool)
    requires DistinctPlaces(cl)
    ensures DistinctPlaces(Filter(keep, cl))
  {
  }

  /** The base part of every group is the same. */
  lemma {:induction false} BasePartSame(a: seq<Cluster>, b: seq<Cluster>, keep: Cluster -> bool, p: Row)
    requires SameButTies(Filter(keep, a), b) && forall x | x in a && InBase(x) :: keep(x)
    ensures Filter(InBase, Group(a, p)) == Filter(InBase, Group(b, p))
  {
    hide Filter;
    FilterTwice(p, a);
    FilterTwice(p, b);
    FiltersSwap(InBase, keep, a);
    KeepsAll(keep, Filter(InBase, a));
  }

  lemma {:induction false} KeepsAll(keep: Cluster -> bool, s: seq<Cluster>)
    requires forall x | x in s :: keep(x)
    ensures Filter(keep, s) == s
  {
    forall i | 0 <= i < |s| ensures keep(s[i]) {
      assert s[i] in s;
    }
    FilterAll(keep, s);
  }

  // ---------------------------------------------------------------- what the first merge left

  lemma {:induction false} IndexOf<T>(s: seq<T>, x: T) returns (i: nat)
    requires x in s
    ensures i < |s| && s[i] == x
  {
    i :| 0 <= i < |s| && s[i] == x;
  }

  /** Where an entry of a group stands in the result. */
  lemma {:induction false} FinalStands(a: seq<Cluster>, m: seq<Row>, keys: seq<Row>, i: nat, k: nat)
    requires m == MapSeq(Final, Logical(a, keys))
    requires i < |keys| && k < |EntriesOf(a, Group(a, keys[i]))|
    ensures Offset(a, keys, i) + k < |m| == |Logical(a, keys)|
    ensures m[Offset(a, keys, i) + k] == Final(EntriesOf(a, Group(a, keys[i]))[k])
    ensures Final(EntriesOf(a, Group(a, keys[i]))[k]) in m
  {
    hide *;
    EntryAt(a, keys, i, k);
    var t := Offset(a, keys, i) + k;
    assert m[t] == Final(Logical(a, keys)[t]);
  }

  lemma {:induction false} ApartEntry(a: seq<Cluster>, p: Row, k: nat)
    requires OwnIds(a) && !Collapses(a, Group(a, p)) && k < |Group(a, p)|
    ensures k < |EntriesOf(a, Group(a, p))| && Final(EntriesOf(a, Group(a, p))[k]) == Group(a, p)[k].row
  {
    SinglePlain(a, p, k);
    assert Group(a, p)[k] in Group(a, p);
    FinalSingle(Group(a, p)[k]);
  }

  /** Every row of a group left apart is on the board. */
  lemma {:induction false} ApartStays(a: seq<Cluster>, m: seq<Row>, p: Row, x: Cluster)
    requires OwnIds(a) && m == MapSeq(Final, Logical(a, Contents(a)))
    requires p in Contents(a) && x in Group(a, p) && !Collapses(a, Group(a, p))
    ensures x.row in m
  {
    hide *;
    var i := IndexOf(Contents(a), p);
    var k := IndexOf(Group(a, p), x);
    ApartEntry(a, p, k);
    FinalStands(a, m, Contents(a), i, k);
  }

  /** Every folded group left one row on the board. */
  lemma {:induction false} FoldStays(a: seq<Cluster>, m: seq<Row>, p: Row)
    requires OwnIds(a) && m == MapSeq(Final, Logical(a, Contents(a)))
    requires p in Contents(a) && Collapses(a, Group(a, p))
    ensures |EntriesOf(a, Group(a, p))| == 1 && Final(EntriesOf(a, Group(a, p))[0]) in m
  {
    hide *;
    var i := IndexOf(Contents(a), p);
    FoldedSize(a, p);
    FinalStands(a, m, Contents(a), i, 0);
  }

  /** So every content is still shown by a row both merges know. */
  lemma {:induction false} StillShown(a: seq<Cluster>, m: seq<Row>, x: Cluster) returns (y: Cluster)
    requires OwnIds(a) && m == MapSeq(Final, Logical(a, Contents(a))) && x in a
    ensures y in a && y.row in m && Payload(y.row) == Payload(x.row)
  {
    var p := Payload(x.row);
    assert p in Contents(a) && x in Group(a, p);
    if Collapses(a, Group(a, p)) {
      FoldStays(a, m, p);
      y := FinalFolded(a, p);
    } else {
      ApartStays(a, m, p, x);
      y := x;
    }
  }

  // ---------------------------------------------------------------- the contents stay

  lemma {:induction false} ContentsStay(c: Codec, base: seq<Row>, ours: seq<Row>, theirs: seq<Row>, m: seq<Row>)
    requires Again(c, base, ours, theirs, m)
    ensures Contents(Ordered(c, Build(c, Arrivals(base, m, theirs))))
         == Contents(Ordered(c, Build(c, Arrivals(base, ours, theirs))))
  {
    hide *;
    var cl := Build(c, Arrivals(base, ours, theirs));
    var a, b := Ordered(c, cl), Ordered(c, Build(c, Arrivals(base, m, theirs)));
    var keep := InRows(base + m + theirs);
    AgainMeans(c, base, ours, theirs, m);
    AgainFacts(c, base, ours, theirs, m);
    SecondTies(c, base, ours, theirs, m);
    forall x | x in cl && InBase(x) ensures keep(x) {
      BaseStays(c, base, ours, theirs, m, x);
      KeepsRow(base + m + theirs, x);
    }
    forall x | x in a ensures ShownIn(Filter(keep, a), x) {
      var y := StillShown(a, m, x);
      KeepsRow(base + m + theirs, y);
      InMiddle(base, m, theirs, y.row);
      ShownBy(Filter(keep, a), x, y);
    }
    ThinnedContents(c, cl, keep);
    SameShownSameContents(Filter(keep, a), b);
  }

  lemma {:induction false} InMiddle(base: seq<Row>, m: seq<Row>, theirs: seq<Row>, row: Row)
    requires row in m
    ensures row in base + m + theirs
  {
  }

  lemma {:induction false} KeepsRow(rows: seq<Row>, x: Cluster)
    ensures InRows(rows)(x) <==> x.row in rows
  {
  }

  lemma {:induction false} ShownBy(s: seq<Cluster>, x: Cluster, y: Cluster)
    requires y in s && Payload(y.row) == Payload(x.row)
    ensures ShownIn(s, x)
  {
  }

  lemma {:induction false} SameShownSameContents(s: seq<Cluster>, t: seq<Cluster>)
    requires SameButTies(s, t)
    ensures Contents(s) == Contents(t)
  {
  }

  lemma {:induction false} ThinnedContents(c: Codec, cl: seq<Cluster>, keep: Cluster -> bool)
    requires CanonInjective(c) && forall x | x in cl && InBase(x) :: keep(x)
    requires forall x | x in Ordered(c, cl) :: ShownIn(Filter(keep, Ordered(c, cl)), x)
    ensures Contents(Filter(keep, Ordered(c, cl))) == Contents(Ordered(c, cl))
  {
    var bs, ns := SortBy(BasePosLe, Filter(InBase, cl)), SortBy(ContentLe(c), Filter(IsNew, cl));
    SortPermutes(BasePosLe, Filter(InBase, cl));
    hide Filter, SortBy, Contents, Payload, ShownIn;
    ContentLeTotal(c);
    SortSorts(ContentLe(c), Filter(IsNew, cl));
    SortSorts(ContentLe(c), Filter(keep, Filter(IsNew, cl)));
    SortFilter(ContentLe(c), keep, Filter(IsNew, cl));
    FilterAppend(keep, bs, ns);
    KeepsAll(keep, bs);
    assert Ordered(c, cl) == bs + ns;
    forall x | x in ns ensures ShownIn(bs + Filter(keep, ns), x) {
      assert x in Ordered(c, cl);
    }
    ContentsThin(c, bs, ns, Filter(keep, ns));
  }

  // ---------------------------------------------------------------- lookalikes stay in order

  ghost predicate OwnKeys(s: seq<Cluster>) {
    forall x, y | x in s && y in s && RowKey(x.row) == RowKey(y.row) :: x == y
  }

  lemma {:induction false} OwnKeysHold(c: Codec, base: seq<Row>, ours: seq<Row>, theirs: seq<Row>)
    requires Undisputed(c, base + ours + theirs)
    ensures OwnKeys(Build(c, Arrivals(base, ours, theirs)))
  {
    var cl := Build(c, Arrivals(base, ours, theirs));
    ClusterFacts(c, base, ours, theirs);
    forall x, y | x in cl && y in cl && RowKey(x.row) == RowKey(y.row) ensures x == y {
      SameKeySame(base + ours + theirs, cl, x, y);
    }
  }

  lemma {:induction false} SameKeySame(rows: seq<Row>, cl: seq<Cluster>, x: Cluster, y: Cluster)
    requires OneRowPerId(rows) && PairwiseApart(cl) && x in cl && y in cl && x.row in rows && y.row in rows
    requires RowKey(x.row) == RowKey(y.row)
    ensures x == y
  {
    var i :| 0 <= i < |cl| && cl[i] == x;
    var j :| 0 <= j < |cl| && cl[j] == y;
  }

  lemma {:induction false} FirstPosSome(base: seq<Row>, row: Row, r: Row)
    requires r in base && SameRow(row, r)
    ensures FirstPos(BaseArrivals(base), row).Some?
  {
    var front, last := base[..|base| - 1], base[|base| - 1];
    LastSplit(base);
    assert BaseArrivals(base)[..|base| - 1] == BaseArrivals(front);
    if r in front {
      FirstPosSome(front, row, r);
    }
  }

  /** The base holds no version of a new row. */
  lemma {:induction false} NewToBase(c: Codec, base: seq<Row>, ours: seq<Row>, theirs: seq<Row>, y: Cluster, r: Row)
    requires Undisputed(c, base + ours + theirs)
    requires y in Build(c, Arrivals(base, ours, theirs)) && IsNew(y) && r in base
    ensures RowKey(r) != RowKey(y.row)
  {
    ClusterFacts(c, base, ours, theirs);
    if RowKey(r) == RowKey(y.row) {
      FirstPosSome(base, y.row, r);
    }
  }

  /** A row of a group left apart stands in the result once. */
  lemma {:induction false} OnceInResult(a: seq<Cluster>, m: seq<Row>, i: nat, k: nat, s: nat)
    requires OwnIds(a) && OwnKeys(a) && m == MapSeq(Final, Logical(a, Contents(a)))
    requires i < |Contents(a)| && !Collapses(a, Group(a, Contents(a)[i])) && k < |Group(a, Contents(a)[i])|
    requires s < |m| && RowKey(m[s]) == RowKey(Group(a, Contents(a)[i])[k].row)
    ensures s == Offset(a, Contents(a), i) + k
  {
    hide *;
    var keys := Contents(a);
    var y := Group(a, keys[i])[k];
    GroupShows(a, keys[i]);
    AtGroup(a, keys[i], k);
    MapAt(a, m, s);
    var z := ResultRow(a, keys, s);
    OwnKeySame(a, z, y);
    var j, l := EntryPlace(a, keys, s);
    FinalShows(a, keys[j], l);
    KeysApart(a, i, j);
    PlainGroup(a, keys[i]);
    ApartEntry(a, keys[i], l);
    AtGroup(a, keys[i], l);
    OwnKeySame(a, Group(a, keys[i])[l], y);
    GroupOnce(a, keys[i], k, l);
  }

  lemma {:induction false} AtGroup(a: seq<Cluster>, p: Row, k: nat)
    requires k < |Group(a, p)|
    ensures Group(a, p)[k] in a && Payload(Group(a, p)[k].row) == p
  {
    assert Group(a, p)[k] in Group(a, p);
  }

  lemma {:induction false} MapAt(a: seq<Cluster>, m: seq<Row>, s: nat)
    requires m == MapSeq(Final, Logical(a, Contents(a))) && s < |m|
    ensures s < |Logical(a, Contents(a))| && m[s] == Final(Logical(a, Contents(a))[s])
  {
  }

  lemma {:induction false} OwnKeySame(a: seq<Cluster>, x: Cluster, y: Cluster)
    requires OwnKeys(a) && x in a && y in a && RowKey(x.row) == RowKey(y.row)
    ensures x == y
  {
  }

  lemma {:induction false} FinalShows(a: seq<Cluster>, p: Row, k: nat)
    requires k < |EntriesOf(a, Group(a, p))|
    ensures Payload(Final(EntriesOf(a, Group(a, p))[k])) == p
  {
    EntryShows(a, p, k);
  }

  lemma {:induction false} KeysApart(a: seq<Cluster>, i: nat, j: nat)
    requires i < |Contents(a)| && j < |Contents(a)| && Contents(a)[i] == Contents(a)[j]
    ensures i == j
  {
  }

  lemma {:induction false} GroupOnce(a: seq<Cluster>, p: Row, k: nat, l: nat)
    requires OwnIds(a) && k < |Group(a, p)| && l < |Group(a, p)| && Group(a, p)[k] == Group(a, p)[l]
    ensures k == l
  {
    FilterNoDuplicates(PaysAs(p), a);
  }

  /** What arrives before the row at place `t` of the result does not print its id. */
  lemma {:induction false} ArrivesFirst(base: seq<Row>, m: seq<Row>, theirs: seq<Row>, t: nat, k: Key)
    requires t <= |m| && (forall r | r in base :: RowKey(r) != k) && forall s | 0 <= s < t :: RowKey(m[s]) != k
    ensures k !in MapSeq(ArrivalKey, BaseArrivals(base) + SideArrivals(m[..t]))
  {
    var u := BaseArrivals(base) + SideArrivals(m[..t]);
    forall n | 0 <= n < |u| ensures ArrivalKey(u[n]) != k {
      if n < |base| {
        assert u[n].row == base[n] && base[n] in base;
      } else {
        assert u[n].row == m[n - |base|];
      }
    }
  }

  lemma {:induction false} ArrivedBefore(base: seq<Row>, m: seq<Row>, s: nat, t: nat)
    requires s < t <= |m|
    ensures RowKey(m[s]) in MapSeq(ArrivalKey, BaseArrivals(base) + SideArrivals(m[..t]))
  {
    var u := BaseArrivals(base) + SideArrivals(m[..t]);
    assert MapSeq(ArrivalKey, u)[|base| + s] == RowKey(m[s]);
  }

  lemma {:induction false} SplitArrivals(base: seq<Row>, m: seq<Row>, theirs: seq<Row>, t: nat)
    requires t <= |m|
    ensures Arrivals(base, m, theirs)
         == BaseArrivals(base) + SideArrivals(m[..t]) + (SideArrivals(m[t..]) + SideArrivals(theirs))
  {
  }

  /** Two rows of the result open their clusters in the order in which they stand there. */
  lemma {:induction false} OpenedInOrder(c: Codec, base: seq<Row>, m: seq<Row>, theirs: seq<Row>, dl: seq<Cluster>,
          x: Cluster, y: Cluster, s: nat, t: nat)
    requires Undisputed(c, base + m + theirs) && dl == Build(c, Arrivals(base, m, theirs))
    requires x in dl && y in dl && s < t < |m| && m[s] == x.row && m[t] == y.row
    requires forall r | r in base :: RowKey(r) != RowKey(y.row)
    requires forall n | 0 <= n < t :: RowKey(m[n]) != RowKey(y.row)
    ensures At(dl, x) < At(dl, y)
  {
    hide *;
    var u, v := BaseArrivals(base) + SideArrivals(m[..t]), SideArrivals(m[t..]) + SideArrivals(theirs);
    SplitArrivals(base, m, theirs, t);
    ArrivesFirst(base, m, theirs, t, RowKey(y.row));
    ArrivedBefore(base, m, s, t);
    SecondKeys(c, base, m, theirs);
    MapAppend(ArrivalKey, u, v);
    KeyAtPlace(dl, x);
    KeyAtPlace(dl, y);
    ListedBefore(MapSeq(ArrivalKey, u), MapSeq(ArrivalKey, v), At(dl, x), At(dl, y));
  }

  lemma {:induction false} KeyAtPlace(dl: seq<Cluster>, x: Cluster)
    requires x in dl
    ensures At(dl, x) < |MapSeq(ClusterKey, dl)| && MapSeq(ClusterKey, dl)[At(dl, x)] == RowKey(x.row)
  {
  }

  lemma {:induction false} SecondKeys(c: Codec, base: seq<Row>, m: seq<Row>, theirs: seq<Row>)
    requires Undisputed(c, base + m + theirs)
    ensures MapSeq(ClusterKey, Build(c, Arrivals(base, m, theirs)))
         == Distinct(MapSeq(ArrivalKey, Arrivals(base, m, theirs)))
  {
    RowsInArrivals(base, m, theirs);
    forall a | a in Arrivals(base, m, theirs) ensures a.row in base + m + theirs {
      RowsInMembers(Arrivals(base, m, theirs), a.row);
    }
    BuildKeys(c, base + m + theirs, Arrivals(base, m, theirs));
  }

  ghost predicate PlacedBefore(s: seq<Cluster>, x: Cluster, y: Cluster) {
    x in s && y in s && At(s, x) < At(s, y)
  }

  lemma {:induction false} PlacedBy(s: seq<Cluster>, x: Cluster, y: Cluster)
    requires x in s && y in s && At(s, x) < At(s, y)
    ensures PlacedBefore(s, x, y)
  {
  }

  lemma {:induction false} AllPlaced(s: seq<Cluster>, a: seq<Cluster>)
    requires forall i, j | 0 <= i < j < |a| :: PlacedBefore(s, a[i], a[j])
    ensures InOrder(s, a)
  {
    forall i, j | 0 <= i < j < |a| ensures a[i] in s && a[j] in s && At(s, a[i]) < At(s, a[j]) {
      assert PlacedBefore(s, a[i], a[j]);
    }
  }

  /** The new rows of a group left apart, as the second merge opens them. */
  lemma {:induction false} NewInOrderAgain(c: Codec, base: seq<Row>, ours: seq<Row>, theirs: seq<Row>, m: seq<Row>,
          p: Row)
    requires Again(c, base, ours, theirs, m)
    requires var a := Ordered(c, Build(c, Arrivals(base, ours, theirs)));
      p in Contents(a) && !Collapses(a, Group(a, p))
    ensures InOrder(Build(c, Arrivals(base, m, theirs)),
                    Filter(IsNew, Group(Ordered(c, Build(c, Arrivals(base, ours, theirs))), p)))
  {
    var a, dl := Ordered(c, Build(c, Arrivals(base, ours, theirs))), Build(c, Arrivals(base, m, theirs));
    var n := Filter(IsNew, Group(a, p));
    OrderedBaseLeads(c, Build(c, Arrivals(base, ours, theirs)), p);
    hide *;
    forall i, j | 0 <= i < j < |n| ensures PlacedBefore(dl, n[i], n[j]) {
      PairInOrder(c, base, ours, theirs, m, p, i, j);
      PlacedBy(dl, n[i], n[j]);
    }
    AllPlaced(dl, n);
  }

  lemma {:induction false} PairInOrder(c: Codec, base: seq<Row>, ours: seq<Row>, theirs: seq<Row>, m: seq<Row>, p: Row,
          i: nat, j: nat)
    requires Again(c, base, ours, theirs, m)
    requires var a := Ordered(c, Build(c, Arrivals(base, ours, theirs)));
      p in Contents(a) && !Collapses(a, Group(a, p)) && i < j < |Filter(IsNew, Group(a, p))|
    ensures var n := Filter(IsNew, Group(Ordered(c, Build(c, Arrivals(base, ours, theirs))), p));
      var dl := Build(c, Arrivals(base, m, theirs));
      n[i] in dl && n[j] in dl && At(dl, n[i]) < At(dl, n[j])
  {
    hide *;
    var cl, dl := Build(c, Arrivals(base, ours, theirs)), Build(c, Arrivals(base, m, theirs));
    var a := Ordered(c, cl);
    var n, f := Filter(IsNew, Group(a, p)), |Filter(InBase, Group(a, p))|;
    AgainMeans(c, base, ours, theirs, m);
    AgainFacts(c, base, ours, theirs, m);
    OwnKeysHold(c, base, ours, theirs);
    OrderedSameClusters(c, cl);
    OwnKeysMove(cl, a);
    OrderedBaseLeads(c, cl, p);
    NewBehind(Group(a, p), i);
    NewBehind(Group(a, p), j);
    var q := IndexOf(Contents(a), p);
    Standing(a, m, q, f + i);
    Standing(a, m, q, f + j);
    InMiddle(base, m, theirs, n[i].row);
    InMiddle(base, m, theirs, n[j].row);
    forall r | r in base ensures RowKey(r) != RowKey(n[j].row) {
      NewToBase(c, base, ours, theirs, n[j], r);
    }
    var t := Offset(a, Contents(a), q) + (f + j);
    forall s | 0 <= s < t ensures RowKey(m[s]) != RowKey(n[j].row) {
      if RowKey(m[s]) == RowKey(n[j].row) {
        OnceInResult(a, m, q, f + j, s);
      }
    }
    OpenedInOrder(c, base, m, theirs, dl, n[i], n[j], Offset(a, Contents(a), q) + (f + i), t);
  }

  lemma {:induction false} OwnKeysMove(cl: seq<Cluster>, a: seq<Cluster>)
    requires OwnKeys(cl) && forall x :: x in a <==> x in cl
    ensures OwnKeys(a)
  {
  }

  lemma {:induction false} NewBehind(g: seq<Cluster>, i: nat)
    requires BaseLeads(g) && i < |Filter(IsNew, g)|
    ensures |Filter(InBase, g)| + i < |g| && g[|Filter(InBase, g)| + i] == Filter(IsNew, g)[i]
    ensures IsNew(Filter(IsNew, g)[i])
  {
    assert Filter(IsNew, g)[i] in Filter(IsNew, g);
  }

  /** The `k`th row of a group left apart, in the group, among the clusters and in the result. */
  lemma {:induction false} Standing(a: seq<Cluster>, m: seq<Row>, q: nat, k: nat)
    requires OwnIds(a) && m == MapSeq(Final, Logical(a, Contents(a)))
    requires q < |Contents(a)| && !Collapses(a, Group(a, Contents(a)[q])) && k < |Group(a, Contents(a)[q])|
    ensures var x := Group(a, Contents(a)[q])[k];
      && x in a && x.row in m && Offset(a, Contents(a), q) + k < |m| && m[Offset(a, Contents(a), q) + k] == x.row
  {
    hide *;
    AtGroup(a, Contents(a)[q], k);
    ApartEntry(a, Contents(a)[q], k);
    FinalStands(a, m, Contents(a), q, k);
  }

  // ---------------------------------------------------------------- the exact condition

  lemma {:induction false} NewPartsSame(c: Codec, base: seq<Row>, ours: seq<Row>, theirs: seq<Row>, m: seq<Row>, p: Row)
    requires Again(c, base, ours, theirs, m)
    requires var a := Ordered(c, Build(c, Arrivals(base, ours, theirs)));
      p in Contents(a) && !Collapses(a, Group(a, p))
    ensures var a := Ordered(c, Build(c, Arrivals(base, ours, theirs)));
      var b := Ordered(c, Build(c, Arrivals(base, m, theirs)));
      Filter(IsNew, Group(b, p)) == Filter(IsNew, Group(a, p))
  {
    hide *;
    var cl, dl := Build(c, Arrivals(base, ours, theirs)), Build(c, Arrivals(base, m, theirs));
    var a, b := Ordered(c, cl), Ordered(c, dl);
    AgainFacts(c, base, ours, theirs, m);
    ClusterFacts(c, base, m, theirs);
    OrderedSameClusters(c, cl);
    OrderedSameClusters(c, dl);
    forall x ensures x in Filter(IsNew, Group(b, p)) <==> x in Filter(IsNew, Group(a, p)) {
      MemberBoth(a, b, p, x);
      if x in Filter(IsNew, Group(a, p)) {
        ApartStays(a, m, p, x);
        InMiddle(base, m, theirs, x.row);
      }
    }
    NewInOrderAgain(c, base, ours, theirs, m, p);
    OpenedOrder(c, dl, p);
    NoneTwice(a, p);
    NoneTwice(b, p);
    forall x | x in Filter(IsNew, Group(b, p)) ensures x in dl {
      MemberBoth(a, b, p, x);
    }
    SameOrder(dl, Filter(IsNew, Group(b, p)), Filter(IsNew, Group(a, p)));
  }

  lemma {:induction false} MemberBoth(a: seq<Cluster>, b: seq<Cluster>, p: Row, x: Cluster)
    ensures x in Filter(IsNew, Group(a, p)) <==> x in a && IsNew(x) && Payload(x.row) == p
    ensures x in Filter(IsNew, Group(b, p)) <==> x in b && IsNew(x) && Payload(x.row) == p
    ensures x in Filter(IsNew, Group(a, p)) ==> x in Group(a, p)
  {
  }

  lemma {:induction false} NoneTwice(a: seq<Cluster>, p: Row)
    requires OwnIds(a)
    ensures NoDuplicates(Filter(IsNew, Group(a, p)))
  {
    FilterNoDuplicates(PaysAs(p), a);
    FilterNoDuplicates(IsNew, Group(a, p));
  }

  lemma {:induction false} OpenedOrder(c: Codec, dl: seq<Cluster>, p: Row)
    requires NoDuplicates(dl)
    ensures InOrder(dl, Filter(IsNew, Group(Ordered(c, dl), p)))
  {
    TiesInOrder(c, dl, p);
    FilterInOrder(IsNew, dl);
    FilterNoDuplicates(IsNew, dl);
    FilterInOrder(PaysAs(p), Filter(IsNew, dl));
    OrderInOrder(dl, Filter(IsNew, dl), Group(Filter(IsNew, dl), p));
  }

  lemma {:induction false} LeftOfHolds(c: Codec, base: seq<Row>, ours: seq<Row>, theirs: seq<Row>, m: seq<Row>, p: Row)
    requires Again(c, base, ours, theirs, m)
    requires p in Contents(Ordered(c, Build(c, Arrivals(base, ours, theirs))))
    ensures var a := Ordered(c, Build(c, Arrivals(base, ours, theirs)));
      var b := Ordered(c, Build(c, Arrivals(base, m, theirs)));
      LeftOf(a, b, p, InRows(base + m + theirs))
  {
    hide *;
    var cl, dl := Build(c, Arrivals(base, ours, theirs)), Build(c, Arrivals(base, m, theirs));
    var a, b, keep := Ordered(c, cl), Ordered(c, dl), InRows(base + m + theirs);
    AgainFacts(c, base, ours, theirs, m);
    OrderedSameClusters(c, cl);
    OrderedSameClusters(c, dl);
    OrderedBaseLeads(c, cl, p);
    OrderedBaseLeads(c, dl, p);
    SecondTies(c, base, ours, theirs, m);
    forall x | x in a && InBase(x) ensures keep(x) {
      BaseStays(c, base, ours, theirs, m, x);
      KeepsRow(base + m + theirs, x);
    }
    BasePartSame(a, b, keep, p);
    forall x ensures x in Group(b, p) <==> x in Group(a, p) && keep(x) {
      KeepsRow(base + m + theirs, x);
      MemberOf(a, p, x);
      MemberOf(b, p, x);
    }
    if !Collapses(a, Group(a, p)) {
      NewPartsSame(c, base, ours, theirs, m, p);
    }
    LeftOfIs(a, b, p, keep);
  }

  lemma {:induction false} MemberOf(a: seq<Cluster>, p: Row, x: Cluster)
    ensures x in Group(a, p) <==> x in a && Payload(x.row) == p
  {
  }

  lemma {:induction false} LeftOfIs(a: seq<Cluster>, b: seq<Cluster>, p: Row, keep: Cluster -> bool)
    requires BaseLeads(Group(a, p)) && BaseLeads(Group(b, p))
    requires Filter(InBase, Group(a, p)) == Filter(InBase, Group(b, p))
    requires forall x :: x in Group(b, p) <==> x in Group(a, p) && keep(x)
    requires !Collapses(a, Group(a, p)) ==> Filter(IsNew, Group(b, p)) == Filter(IsNew, Group(a, p))
    ensures LeftOf(a, b, p, keep)
  {
    hide Collapses, Filter;
  }

  lemma {:induction false} CopiesOf(c: Codec, a: seq<Cluster>, p: Row)
    requires p in Contents(a)
    ensures Copies(Settle(c, a), p) == |EntriesOf(a, Group(a, p))|
  {
    LogicalCount(a, Contents(a), p);
    AssignShows(c, Logical(a, Contents(a)), {}, InitialTaken(a));
  }

  lemma {:induction false} FinalsAgain(a: seq<Cluster>, b: seq<Cluster>, m: seq<Row>, keep: Cluster -> bool, p: Row)
    requires OwnIds(a) && OwnIds(b) && LeftOf(a, b, p, keep) && p in Contents(a) && FoldsAgain(a, keep)
    requires m == MapSeq(Final, Logical(a, Contents(a))) && forall x: Cluster | x.row in m :: keep(x)
    ensures MapSeq(Final, EntriesOf(b, Group(b, p))) == MapSeq(Final, EntriesOf(a, Group(a, p)))
  {
    if Collapses(a, Group(a, p)) {
      FoldStays(a, m, p);
    }
    hide Final, LeftOf, Collapses, EntriesOf;
    LeftFinals(a, b, p, keep);
  }

  lemma {:induction false} FoldsSame(c: Codec, a: seq<Cluster>, b: seq<Cluster>, m: seq<Row>, keep: Cluster -> bool)
    requires OwnIds(a) && OwnIds(b) && Contents(b) == Contents(a) && FoldsAgain(a, keep)
    requires m == MapSeq(Final, Logical(a, Contents(a))) && forall x: Cluster | x.row in m :: keep(x)
    requires forall p | p in Contents(a) :: LeftOf(a, b, p, keep)
    ensures Settle(c, b) == m
  {
    hide *;
    forall p | p in Contents(a)
      ensures MapSeq(Final, EntriesOf(b, Group(b, p))) == MapSeq(Final, EntriesOf(a, Group(a, p)))
    {
      FinalsAgain(a, b, m, keep, p);
    }
    LogicalFinals(a, b, Contents(a));
    SettleFinal(c, b);
  }

  lemma {:induction false} UnfoldedDiffers(c: Codec, a: seq<Cluster>, b: seq<Cluster>, keep: Cluster -> bool, p: Row)
    requires OwnIds(a) && OwnIds(b) && Contents(b) == Contents(a) && p in Contents(a) && LeftOf(a, b, p, keep)
    requires Collapses(a, Group(a, p)) && !LeftFolds(Filter(keep, Group(a, p)))
    ensures Settle(c, b) != Settle(c, a)
  {
    hide *;
    CopiesOf(c, a, p);
    CopiesOf(c, b, p);
    FoldedSize(a, p);
    ShownGroup(b, p);
    LeftEntries(a, b, p, keep);
  }

  lemma {:induction false} ShownGroup(b: seq<Cluster>, p: Row)
    requires p in Contents(b)
    ensures Group(b, p) != []
  {
    var cu :| cu in b && Payload(cu.row) == p;
    assert cu in Group(b, p);
  }

  lemma {:induction false} FoldsAgainMeans(a: seq<Cluster>, keep: Cluster -> bool) returns (p: Row)
    ensures !FoldsAgain(a, keep) ==>
      p in Contents(a) && Collapses(a, Group(a, p)) && !LeftFolds(Filter(keep, Group(a, p)))
  {
    p := Bare(Value("", "", false));
    if !FoldsAgain(a, keep) {
      p :| p in Contents(a) && Collapses(a, Group(a, p)) && !LeftFolds(Filter(keep, Group(a, p)));
    }
  }

  /** IDEMPOTENT, exactly, with edits. On a board whose versions are coherent and where rows that print one id are one
      row, and as long as the base and the side hold no outdated version of a row that is gone, merging the side in
      again changes nothing if and only if it still sees enough of every folded content to fold it again: one row of
      it, or a derived id among them. */
  lemma {:induction false} EditedExactly(c: Codec, base: seq<Row>, ours: seq<Row>, theirs: seq<Row>)
    requires Undisputed(c, base + ours + theirs)
    requires var m := Merged(c, base, ours, theirs);
      NothingStale(Build(c, Arrivals(base, ours, theirs)), base + theirs, base + m + theirs)
    ensures var m := Merged(c, base, ours, theirs);
      Merged(c, base, m, theirs) == m
      <==> FoldsAgain(Ordered(c, Build(c, Arrivals(base, ours, theirs))), InRows(base + m + theirs))
  {
    var m := Merged(c, base, ours, theirs);
    assert Again(c, base, ours, theirs, m);
    hide *;
    EditedEither(c, base, ours, theirs, m);
    MergedIs(c, base, m, theirs);
  }

  lemma {:induction false} EditedEither(c: Codec, base: seq<Row>, ours: seq<Row>, theirs: seq<Row>, m: seq<Row>)
    requires Again(c, base, ours, theirs, m) && m == Merged(c, base, ours, theirs)
    ensures Settle(c, Ordered(c, Build(c, Arrivals(base, m, theirs)))) == m
       <==> FoldsAgain(Ordered(c, Build(c, Arrivals(base, ours, theirs))), InRows(base + m + theirs))
  {
    hide *;
    var a, b := Ordered(c, Build(c, Arrivals(base, ours, theirs))), Ordered(c, Build(c, Arrivals(base, m, theirs)));
    var keep := InRows(base + m + theirs);
    AgainFacts(c, base, ours, theirs, m);
    ContentsStay(c, base, ours, theirs, m);
    MergedIs(c, base, ours, theirs);
    forall p | p in Contents(a) ensures LeftOf(a, b, p, keep) {
      LeftOfHolds(c, base, ours, theirs, m, p);
    }
    forall x: Cluster | x.row in m ensures keep(x) {
      InMiddle(base, m, theirs, x.row);
      KeepsRow(base + m + theirs, x);
    }
    if FoldsAgain(a, keep) {
      FoldsSame(c, a, b, m, keep);
    } else {
      var p := FoldsAgainMeans(a, keep);
      UnfoldedDiffers(c, a, b, keep, p);
    }
  }

  /** IDEMPOTENT with edits: where no content is folded, merging a side in again changes nothing. */
  lemma {:induction false} EditedIdempotent(c: Codec, base: seq<Row>, ours: seq<Row>, theirs: seq<Row>)
    requires Undisputed(c, base + ours + theirs)
    requires NothingFolds(Ordered(c, Build(c, Arrivals(base, ours, theirs))))
    ensures var m := Merged(c, base, ours, theirs);
      Merged(c, base, m, theirs) == m
  {
    var cl, m := Build(c, Arrivals(base, ours, theirs)), Merged(c, base, ours, theirs);
    var a := Ordered(c, cl);
    OwnIdsHold(c, base, ours, theirs);
    SettleFinal(c, a);
    OrderedSameClusters(c, cl);
    hide Collapses, Build, Ordered, Logical, Undisputed, Arrivals, Settle, Final;
    forall cu | cu in cl ensures cu.row in base + m + theirs {
      assert Payload(cu.row) in Contents(a) && cu in Group(a, Payload(cu.row));
      ApartStays(a, m, Payload(cu.row), cu);
    }
    assert NothingStale(cl, base + theirs, base + m + theirs);
    assert FoldsAgain(a, InRows(base + m + theirs));
    EditedExactly(c, base, ours, theirs);
  }
}
