/** The merge as it runs: clusters updated in place behind a key index, then loops that order,
    group and number the rows. Proved to compute `MergeSpec.Merged`. */
module MergeRows {
  import opened Prelude
  import opened BoardRows
  import opened IdSpace
  import opened MergeSpec

  // ---------------------------------------------------------------- absorb

  class Clustering {
    var clusters: seq<Cluster>
    var index: map<Key, seq<nat>>

    /** The index lists, per key and in order, exactly the clusters whose row has that key. */
    ghost predicate Valid()
      reads this
    {
      && (forall i | 0 <= i < |clusters| :: Indexed(clusters[i], i, index))
      && (forall k | k in index :: ListsOnly(clusters, k, index[k]))
    }

    constructor ()
      ensures Valid() && clusters == []
    {
      clusters, index := [], map[];
    }

    /** The first cluster this row is a version of, looked up through the index. */
    method Find(row: Row) returns (hit: Option<nat>)
      requires Valid()
      ensures hit == FindHit(clusters, row)
    {
      var key := RowKey(row);
      if key !in index {
        return None;
      }
      var candidates := index[key];
      assert ListsOnly(clusters, key, candidates);
      for n := 0 to |candidates|
        invariant forall m | 0 <= m < n :: !SameRow(clusters[candidates[m]].row, row)
      {
        var k := candidates[n];
        assert ListsOnly(clusters, key, candidates);
        if SameRow(clusters[k].row, row) {
          forall i | 0 <= i < k && i in candidates ensures !SameRow(clusters[i].row, row) {
            var m :| 0 <= m < |candidates| && candidates[m] == i;
          }
          return Some(k);
        }
      }
      forall i | i in candidates ensures !SameRow(clusters[i].row, row) {
        var m :| 0 <= m < |candidates| && candidates[m] == i;
      }
      return None;
    }

    /** Start a cluster for a row nobody is a version of yet. */
    method Open(row: Row)
      requires Valid()
      modifies this
      ensures Valid() && clusters == old(clusters) + [NewCluster(row)]
    {
      var key, listed := RowKey(row), [];
      if key in index {
        listed := index[key];
      }
      clusters := clusters + [NewCluster(row)];
      index := index[key := listed + [|clusters| - 1]];
      OpenedIndex(old(clusters), old(index), row, listed);
    }

    /** Replace a cluster by one for the same key. */
    method Put(k: nat, cu: Cluster)
      requires Valid() && k < |clusters| && RowKey(cu.row) == RowKey(clusters[k].row)
      modifies this
      ensures Valid() && clusters == old(clusters)[k := cu]
    {
      clusters := clusters[k := cu];
      forall j | j in index ensures ListsOnly(clusters, j, index[j]) {
        assert ListsOnly(old(clusters), j, index[j]);
      }
    }

    method AbsorbRow(c: Codec, row: Row, pos: Option<nat>)
      requires Valid()
      modifies this
      ensures Valid() && clusters == Absorb(c, old(clusters), Arrival(row, pos))
    {
      var key := RowKey(row);
      var hit := Find(row);
      if hit.None? {
        Open(row);
        hit := Some(|clusters| - 1);
      }
      var cu := clusters[hit.value];
      if pos.Some? && cu.basePos.None? {
        cu := cu.(basePos := pos, baseId := RowId(row));
      }
      if cu.row.Obj? && row.Obj? {
        if cu.row != row {
          MergedKey(c, cu.row, row);
          cu := cu.(row := MergePair(c, cu.row, row));
        }
        if row.id.Some? && row.id.value !in cu.ids {
          cu := cu.(ids := cu.ids + [row.id.value]);
        }
      }
      assert cu == NoteRow(c, clusters[hit.value], Arrival(row, pos));
      Put(hit.value, cu);
    }

    method AbsorbRows(c: Codec, rows: seq<Row>, isBase: bool, ghost done: seq<Arrival>)
      requires Valid() && clusters == Build(c, done)
      modifies this
      ensures Valid()
      ensures clusters == Build(c, done + if isBase then BaseArrivals(rows) else SideArrivals(rows))
    {
      ghost var coming := if isBase then BaseArrivals(rows) else SideArrivals(rows);
      assert done + coming[..0] == done;
      for pos := 0 to |rows|
        invariant Valid() && clusters == Build(c, done + coming[..pos])
      {
        AbsorbRow(c, rows[pos], if isBase then Some(pos) else None);
        BuildStep(c, done, coming, pos);
      }
      assert coming[..|rows|] == coming;
    }
  }

  ghost predicate ListsOnly(clusters: seq<Cluster>, k: Key, s: seq<nat>) {
    && (forall m, n | 0 <= m < n < |s| :: s[m] < s[n])
    && (forall m | 0 <= m < |s| :: s[m] < |clusters| && RowKey(clusters[s[m]].row) == k)
  }

  /** The index knows the cluster at place `i`. */
  ghost predicate Indexed(cu: Cluster, i: nat, index: map<Key, seq<nat>>) {
    RowKey(cu.row) in index && i in index[RowKey(cu.row)]
  }

  /** A cluster put at the end belongs at the end of its key's list and in no other. */
  lemma {:induction false} OpenedLists(clusters: seq<Cluster>, cu: Cluster, k: Key, s: seq<nat>)
    requires ListsOnly(clusters, k, s)
    ensures ListsOnly(clusters + [cu], k, if k == RowKey(cu.row) then s + [|clusters|] else s)
  {
  }

  lemma {:induction false} OpenedIndexed(cu: Cluster, i: nat, index: map<Key, seq<nat>>, key: Key, listed: seq<nat>,
          n: nat)
    requires Indexed(cu, i, index) && listed == if key in index then index[key] else []
    ensures Indexed(cu, i, index[key := listed + [n]])
  {
  }

  lemma {:induction false} OpenedIndex(clusters: seq<Cluster>, index: map<Key, seq<nat>>, row: Row, listed: seq<nat>)
    requires forall i | 0 <= i < |clusters| :: Indexed(clusters[i], i, index)
    requires forall k | k in index :: ListsOnly(clusters, k, index[k])
    requires listed == if RowKey(row) in index then index[RowKey(row)] else []
    ensures var now, after := clusters + [NewCluster(row)], index[RowKey(row) := listed + [|clusters|]];
      && (forall i | 0 <= i < |now| :: Indexed(now[i], i, after))
      && (forall k | k in after :: ListsOnly(now, k, after[k]))
  {
    hide RowKey;
    var now, after := clusters + [NewCluster(row)], index[RowKey(row) := listed + [|clusters|]];
    forall k | k in after ensures ListsOnly(now, k, after[k]) {
      OpenedLists(clusters, NewCluster(row), k, if k == RowKey(row) then listed else after[k]);
    }
    forall i | 0 <= i < |now| ensures Indexed(now[i], i, after) {
      if i < |clusters| {
        OpenedIndexed(clusters[i], i, index, RowKey(row), listed, |clusters|);
      }
    }
  }

  lemma {:induction false} BuildStep(c: Codec, done: seq<Arrival>, coming: seq<Arrival>, pos: nat)
    requires pos < |coming|
    ensures Build(c, done + coming[..pos + 1]) == Absorb(c, Build(c, done + coming[..pos]), coming[pos])
  {
    var now := done + coming[..pos + 1];
    assert now[..|now| - 1] == done + coming[..pos];
  }

  lemma {:induction false} MergedKey(c: Codec, a: Row, b: Row)
    requires a.Obj? && b.Obj? && SameRow(a, b) && a != b
    ensures RowKey(MergePair(c, a, b)) == RowKey(a)
  {
    MergePairCarries(c, a, b);
  }

  // ---------------------------------------------------------------- claims and groups

  predicate Holds(claims: map<Id, set<Row>>, id: Id, p: Row) {
    id in claims && p in claims[id]
  }

  method AddClaims(before: map<Id, set<Row>>, ids: seq<Id>, pid: Row) returns (claims: map<Id, set<Row>>)
    ensures forall id, p :: Holds(claims, id, p) <==> (Holds(before, id, p) || (id in ids && p == pid))
  {
    claims := before;
    for k := 0 to |ids|
      invariant forall id, p :: Holds(claims, id, p) <==> (Holds(before, id, p) || (id in ids[..k] && p == pid))
    {
      var holders := if ids[k] in claims then claims[ids[k]] else {};
      assert ids[..k + 1] == ids[..k] + [ids[k]];
      claims := claims[ids[k] := holders + {pid}];
    }
    assert ids[..|ids|] == ids;
  }

  method ContestedIds(ordered: seq<Cluster>) returns (contested: set<Id>)
    ensures forall id :: id in contested <==> Contested(ordered, id)
  {
    var claims: map<Id, set<Row>> := map[];
    for i := 0 to |ordered|
      invariant forall id, p :: Holds(claims, id, p) <==> Claims(ordered[..i], id, p)
    {
      claims := AddClaims(claims, ClusterIds(ordered[i]), Payload(ordered[i].row));
      ClaimsStep(ordered, i);
    }
    assert ordered[..|ordered|] == ordered;
    contested := set id | id in claims && |claims[id]| > 1;
    forall id ensures id in contested <==> Contested(ordered, id) {
      ContestedMeans(ordered, id);
      if id in claims {
        TwoMembers(claims[id]);
        assert forall p :: p in claims[id] <==> Holds(claims, id, p);
      } else {
        assert forall p :: !Holds(claims, id, p);
      }
    }
  }

  lemma {:induction false} ContestedMeans(ordered: seq<Cluster>, id: Id)
    ensures Contested(ordered, id) <==> exists p, q :: p != q && Claims(ordered, id, p) && Claims(ordered, id, q)
  {
    if Contested(ordered, id) {
      var x, y :| x in ordered && y in ordered
        && id in ClusterIds(x) && id in ClusterIds(y) && Payload(x.row) != Payload(y.row);
      assert Claims(ordered, id, Payload(x.row)) && Claims(ordered, id, Payload(y.row));
    }
  }

  ghost predicate Claims(s: seq<Cluster>, id: Id, p: Row) {
    exists cu :: cu in s && id in ClusterIds(cu) && Payload(cu.row) == p
  }

  lemma {:induction false} ClaimsStep(s: seq<Cluster>, i: nat)
    requires i < |s|
    ensures forall id, p :: Claims(s[..i + 1], id, p) <==>
      (Claims(s[..i], id, p) || (id in ClusterIds(s[i]) && p == Payload(s[i].row)))
  {
    assert s[..i + 1] == s[..i] + [s[i]];
    forall id, p ensures Claims(s[..i + 1], id, p) <==>
      (Claims(s[..i], id, p) || (id in ClusterIds(s[i]) && p == Payload(s[i].row)))
    {
      if id in ClusterIds(s[i]) && p == Payload(s[i].row) {
        assert s[i] in s[..i + 1];
      } else if Claims(s[..i], id, p) {
        var cu :| cu in s[..i] && id in ClusterIds(cu) && Payload(cu.row) == p;
        assert cu in s[..i + 1];
      }
    }
  }

  lemma {:induction false} TwoMembers<T>(s: set<T>)
    ensures |s| > 1 <==> exists x, y :: x in s && y in s && x != y
  {
    if |s| > 1 {
      var x :| x in s;
      assert |s - {x}| == |s| - 1;
      var y :| y in s - {x};
    }
    if x, y :| x in s && y in s && x != y {
      assert s == {x, y} + (s - {x, y});
      assert |s| == |{x, y}| + |s - {x, y}|;
    }
  }

  lemma {:induction false} ContentsStep(s: seq<Cluster>, i: nat)
    requires i < |s|
    ensures var pid := Payload(s[i].row);
      Contents(s[..i + 1]) == if pid in Contents(s[..i]) then Contents(s[..i]) else Contents(s[..i]) + [pid]
  {
    assert MapSeq(PayloadOf, s[..i + 1]) == MapSeq(PayloadOf, s[..i]) + [Payload(s[i].row)];
    DistinctSnoc(MapSeq(PayloadOf, s[..i]), Payload(s[i].row));
  }

  lemma {:induction false} GroupStep(s: seq<Cluster>, i: nat, p: Row)
    requires i < |s|
    ensures Group(s[..i + 1], p) == if Payload(s[i].row) == p then Group(s[..i], p) + [s[i]] else Group(s[..i], p)
  {
    assert s[..i + 1] == s[..i] + [s[i]];
    FilterSnoc(PaysAs(p), s[..i], s[i]);
  }

  /** The dict holds every non-empty group. */
  ghost predicate Grouped(grouped: map<Row, seq<Cluster>>, s: seq<Cluster>) {
    forall p :: Group(s, p) == if p in grouped then grouped[p] else []
  }

  lemma {:induction false} GroupedStep(before: map<Row, seq<Cluster>>, after: map<Row, seq<Cluster>>, s: seq<Cluster>,
          i: nat)
    requires i < |s| && Grouped(before, s[..i])
    requires var pid := Payload(s[i].row); after == before[pid := (if pid in before then before[pid] else []) + [s[i]]]
    ensures Grouped(after, s[..i + 1])
  {
    forall p ensures Group(s[..i + 1], p) == if p in after then after[p] else [] {
      GroupStep(s, i, p);
    }
  }

  /** The dict of groups, in insertion order. */
  method GroupByContent(ordered: seq<Cluster>) returns (keys: seq<Row>, grouped: map<Row, seq<Cluster>>)
    ensures keys == Contents(ordered)
    ensures forall p :: p in grouped <==> p in keys
    ensures forall p | p in grouped :: grouped[p] == Group(ordered, p)
  {
    keys, grouped := [], map[];
    assert ordered[..0] == [];
    for i := 0 to |ordered|
      invariant keys == Contents(ordered[..i]) && (forall p :: p in grouped <==> p in keys)
      invariant Grouped(grouped, ordered[..i])
    {
      var cu := ordered[i];
      var pid := Payload(cu.row);
      ContentsStep(ordered, i);
      ghost var before := grouped;
      if pid in grouped {
        grouped := grouped[pid := grouped[pid] + [cu]];
      } else {
        keys := keys + [pid];
        grouped := grouped[pid := [cu]];
        assert [] + [cu] == [cu];
      }
      GroupedStep(before, grouped, ordered, i);
    }
    assert ordered[..|ordered|] == ordered;
  }

  /** One entry for a group that is one row under several ids, else one per cluster. */
  method GroupEntries(clusters: seq<Cluster>, contested: set<Id>,
          ghost ordered: seq<Cluster>) returns (entries: seq<Entry>)
    requires forall id :: id in contested <==> Contested(ordered, id)
    ensures entries == EntriesOf(ordered, clusters)
  {
    var ids := GroupIds(clusters);
    var derived := AnyDerived(ids);
    var disputed := forall id | id in ids :: id in contested;
    assert disputed == AllContested(ordered, ids);
    if |clusters| > 1 && ids != [] && (derived || disputed) {
      assert Collapses(ordered, clusters);
      return [Entry(clusters[0].row, ids, clusters[0].baseId, |clusters|)];
    }
    assert !Collapses(ordered, clusters);
    return MapSeq(Single, clusters);
  }

  lemma {:induction false} LogicalStep(ordered: seq<Cluster>, keys: seq<Row>, n: nat)
    requires n < |keys|
    ensures Logical(ordered, keys[..n + 1]) == Logical(ordered, keys[..n]) + EntriesOf(ordered, Group(ordered, keys[n]))
  {
    assert keys[..n + 1] == keys[..n] + [keys[n]];
    LogicalSnoc(ordered, keys[..n], keys[n]);
  }

  /** Entries of the result, and the clusters of the group visited last. */
  method LogicalRows(ordered: seq<Cluster>) returns (logical: seq<Entry>, lastGroup: seq<Cluster>)
    ensures logical == Logical(ordered, Contents(ordered))
    ensures Contents(ordered) == [] ==> lastGroup == []
    ensures var keys := Contents(ordered); keys != [] ==> lastGroup == Group(ordered, keys[|keys| - 1])
  {
    var contested := ContestedIds(ordered);
    var keys, grouped := GroupByContent(ordered);
    logical, lastGroup := [], [];
    for n := 0 to |keys|
      invariant logical == Logical(ordered, keys[..n])
      invariant n == 0 ==> lastGroup == []
      invariant n > 0 ==> lastGroup == Group(ordered, keys[n - 1])
    {
      var clusters := grouped[keys[n]];
      var entries := GroupEntries(clusters, contested, ordered);
      LogicalStep(ordered, keys, n);
      logical := logical + entries;
      lastGroup := clusters;
    }
    assert keys[..|keys|] == keys;
  }

  // ---------------------------------------------------------------- how many ids can be in use

  function Among(keys: seq<Row>): Cluster -> bool {
    (cu: Cluster) => Payload(cu.row) in keys
  }

  lemma {:induction false} LogicalSize(ordered: seq<Cluster>, keys: seq<Row>)
    requires NoDuplicates(keys)
    ensures |Logical(ordered, keys)| <= |Filter(Among(keys), ordered)|
  {
    if keys != [] {
      LogicalSize(ordered, keys[..|keys| - 1]);
      LogicalSizeStep(ordered, keys[..|keys| - 1], keys[|keys| - 1]);
      LastSplit(keys);
    }
  }

  lemma {:induction false} LogicalSizeStep(ordered: seq<Cluster>, keys: seq<Row>, p: Row)
    requires p !in keys && |Logical(ordered, keys)| <= |Filter(Among(keys), ordered)|
    ensures |Logical(ordered, keys + [p])| <= |Filter(Among(keys + [p]), ordered)|
  {
    SplitFilter(keys, p, ordered);
    LogicalSnoc(ordered, keys, p);
    assert |EntriesOf(ordered, Group(ordered, p))| <= |Group(ordered, p)|;
  }

  lemma {:induction false} SplitFilter(front: seq<Row>, last: Row, s: seq<Cluster>)
    requires last !in front
    ensures |Filter(Among(front), s)| + |Group(s, last)|
         == |Filter(Among(front + [last]), s)|
  {
    if s != [] {
      var init, x := s[..|s| - 1], s[|s| - 1];
      assert s == init + [x];
      SplitFilter(front, last, init);
      FilterSnoc(Among(front), init, x);
      FilterSnoc(PaysAs(last), init, x);
      FilterSnoc(Among(front + [last]), init, x);
    }
  }

  lemma {:induction false} IdsOfSize(rows: seq<Row>)
    ensures |IdsOf(rows)| <= |rows|
  {
    if rows != [] {
      var front, last := rows[..|rows| - 1], rows[|rows| - 1];
      IdsOfSize(front);
      assert IdsOf(rows) == IdsOf(front) + set x | x == last && RowId(x).Some? :: x.id.value;
      var s := set x | x == last && RowId(x).Some? :: x.id.value;
      if RowId(last).Some? {
        assert s == {last.id.value};
      } else {
        assert s == {};
      }
    }
  }

  /** The ids the allocator can come to hold fit in half the band on any board that does. */
  lemma {:induction false} FewIds(c: Codec, base: seq<Row>, ours: seq<Row>, theirs: seq<Row>)
    ensures var ordered := Ordered(c, Build(c, Arrivals(base, ours, theirs)));
      |InitialTaken(ordered)| + |Logical(ordered, Contents(ordered))| <= 2 * (|base| + |ours| + |theirs|)
  {
    var cl := Build(c, Arrivals(base, ours, theirs));
    var ordered := Ordered(c, cl);
    SortPermutes(BasePosLe, Filter(InBase, cl));
    SortPermutes(ContentLe(c), Filter(IsNew, cl));
    BaseOrNew(cl);
    var keys := Contents(ordered);
    LogicalSize(ordered, keys);
    if keys != [] {
      IdsOfSize(RowsOf(Group(ordered, keys[|keys| - 1])));
    }
  }

  // ---------------------------------------------------------------- assign

  method ChooseId(c: Codec, entry: Entry, claimed: set<Id>, alloc: IdAllocator) returns (chosen: Option<Id>)
    requires SaltsSpread(c) && |alloc.taken| < DERIVED_ID_SPAN
    modifies alloc
    ensures chosen == Choice(c, entry, claimed, old(alloc.taken))
    ensures chosen.None? ==> alloc.taken == old(alloc.taken)
    ensures chosen.Some? ==> alloc.taken + {chosen.value} == old(alloc.taken) + {chosen.value}
  {
    chosen := None;
    if entry.baseId.Some? && entry.baseId.value !in claimed {
      chosen := entry.baseId;
    }
    if chosen.None? {
      chosen := FirstUnclaimed(SortBy(IdLe, entry.ids), claimed);
    }
    if chosen.None? {
      var own := RowId(entry.row);
      if own.None? && entry.ids == [] {
      } else {
        var id := alloc.Fresh(c, if own.Some? then own else Some(entry.ids[0]), c.digest(Payload(entry.row)));
        chosen := Some(id);
      }
    }
  }

  lemma {:induction false} AssignStep(c: Codec, es: seq<Entry>, n: nat, claimed: set<Id>, taken: set<Id>)
    requires n < |es|
    ensures var id := Choice(c, es[n], claimed, taken);
      Assign(c, es[n..], claimed, taken)
          == [WithId(es[n].row, id)] + Assign(c, es[n + 1..], Added(claimed, id), Added(taken, id))
  {
    assert es[n..][1..] == es[n + 1..];
  }

  lemma {:induction false} AddedSize(s: set<Id>, id: Option<Id>)
    ensures |Added(s, id)| <= |s| + 1
  {
  }

  method AssignIds(c: Codec, logical: seq<Entry>, alloc: IdAllocator) returns (rows: seq<Row>)
    requires SaltsSpread(c) && |alloc.taken| + |logical| <= DERIVED_ID_SPAN
    modifies alloc
    ensures rows == Assign(c, logical, {}, old(alloc.taken))
  {
    var claimed: set<Id> := {};
    rows := [];
    assert logical[0..] == logical;
    for n := 0 to |logical|
      invariant |alloc.taken| <= old(|alloc.taken|) + n
      invariant rows + Assign(c, logical[n..], claimed, alloc.taken) == Assign(c, logical, {}, old(alloc.taken))
    {
      var row := logical[n].row;
      AssignStep(c, logical, n, claimed, alloc.taken);
      ghost var taken := alloc.taken;
      var chosen := ChooseId(c, logical[n], claimed, alloc);
      if row.Obj? && chosen.Some? && row.id != chosen {
        row := row.(id := chosen);
      }
      assert row == WithId(logical[n].row, chosen);
      if chosen.Some? {
        alloc.Claim(chosen.value);
        claimed := claimed + {chosen.value};
      }
      assert alloc.taken == Added(taken, chosen);
      AppendAssociates(rows, [row], Assign(c, logical[n + 1..], claimed, alloc.taken));
      AddedSize(taken, chosen);
      rows := rows + [row];
    }
  }

  method ClusterAll(c: Codec, base: seq<Row>, ours: seq<Row>, theirs: seq<Row>) returns (clusters: seq<Cluster>)
    ensures clusters == Build(c, Arrivals(base, ours, theirs))
  {
    var work := new Clustering();
    work.AbsorbRows(c, base, true, []);
    assert [] + BaseArrivals(base) == BaseArrivals(base);
    work.AbsorbRows(c, ours, false, BaseArrivals(base));
    work.AbsorbRows(c, theirs, false, BaseArrivals(base) + SideArrivals(ours));
    return work.clusters;
  }

  /** The three-way merge. The bound leaves half the reserved band free, so every salt loop stops. */
  method MergeRows(c: Codec, base: seq<Row>, ours: seq<Row>, theirs: seq<Row>) returns (rows: seq<Row>)
    requires SaltsSpread(c) && 2 * (|base| + |ours| + |theirs|) <= DERIVED_ID_SPAN
    ensures rows == Merged(c, base, ours, theirs)
  {
    var clusters := ClusterAll(c, base, ours, theirs);
    var ordered := SortBy(BasePosLe, Filter(InBase, clusters)) + SortBy(ContentLe(c), Filter(IsNew, clusters));
    assert ordered == Ordered(c, Build(c, Arrivals(base, ours, theirs)));
    var logical, lastGroup := LogicalRows(ordered);
    var alloc := new IdAllocator(RowsOf(lastGroup));
    assert alloc.taken == InitialTaken(ordered);
    FewIds(c, base, ours, theirs);
    rows := AssignIds(c, logical, alloc);
  }
}
