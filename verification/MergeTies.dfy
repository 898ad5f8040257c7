/** Order independence, exactly: which ties between lookalikes let the result depend on the sides. */
module MergeTies {
  import opened Prelude
  import opened BoardRows
  import opened IdSpace
  import opened MergeSpec
  import opened MergeLossless
  import opened MergeVersions
  import opened MergeIds
  import opened MergeSymmetry
  import MergeCanonical

  // ---------------------------------------------------------------- an undisputed id is kept

  ghost predicate NeverTakes(e: Entry, x: Id) {
    && x !in e.ids && e.baseId != Some(x)
    && (Like(e).Some? ==> Numeric(Like(e).value))
  }

  lemma {:induction false} ChoiceNot(c: Codec, e: Entry, claimed: set<Id>, taken: set<Id>, x: Id)
    requires NeverTakes(e, x) && !IsDerived(x)
    ensures Choice(c, e, claimed, taken) != Some(x)
  {
    SortPermutes(IdLe, e.ids);
    if OwnChoice(e, claimed).None? && Like(e).Some? {
      FreshIsDerived(c, Like(e), c.digest(Payload(e.row)), taken);
    }
  }

  lemma {:induction false} AssignTail(c: Codec, es: seq<Entry>, claimed: set<Id>, taken: set<Id>, t: nat)
    requires 0 < t < |es|
    ensures var id := Choice(c, es[0], claimed, taken);
      Assign(c, es, claimed, taken)[t] == Assign(c, es[1..], Added(claimed, id), Added(taken, id))[t - 1]
  {
  }

  /** An entry whose only id nobody before it takes stands as it came. */
  lemma {:induction false} Stays(c: Codec, es: seq<Entry>, claimed: set<Id>, taken: set<Id>, t: nat, x: Id)
    requires t < |es| && es[t].ids == [x] && RowId(es[t].row) == Some(x) && es[t].baseId.None?
    requires !IsDerived(x) && x !in claimed && forall s | 0 <= s < t :: NeverTakes(es[s], x)
    ensures Assign(c, es, claimed, taken)[t] == es[t].row
    decreases t, 1
  {
    if t == 0 {
      SortedStays(IdLe, es[0].ids);
    } else {
      StaysStep(c, es, claimed, taken, t, x);
    }
  }

  lemma {:induction false} StaysStep(c: Codec, es: seq<Entry>, claimed: set<Id>, taken: set<Id>, t: nat, x: Id)
    requires 0 < t < |es| && es[t].ids == [x] && RowId(es[t].row) == Some(x) && es[t].baseId.None?
    requires !IsDerived(x) && x !in claimed && forall s | 0 <= s < t :: NeverTakes(es[s], x)
    ensures Assign(c, es, claimed, taken)[t] == es[t].row
    decreases t, 0
  {
    hide *;
    var id := Choice(c, es[0], claimed, taken);
    ChoiceNot(c, es[0], claimed, taken, x);
    AssignTail(c, es, claimed, taken, t);
    NotAdded(claimed, id, x);
    Stays(c, es[1..], Added(claimed, id), Added(taken, id), t - 1, x);
  }

  lemma {:induction false} NotAdded(s: set<Id>, id: Option<Id>, x: Id)
    requires x !in s && id != Some(x)
    ensures x !in Added(s, id)
  {
  }

  lemma {:induction false} StaysBare(c: Codec, es: seq<Entry>, claimed: set<Id>, taken: set<Id>, t: nat)
    requires t < |es| && es[t].ids == [] && RowId(es[t].row).None? && es[t].baseId.None?
    ensures Assign(c, es, claimed, taken)[t] == es[t].row
  {
    if t > 0 {
      var id := Choice(c, es[0], claimed, taken);
      AssignTail(c, es, claimed, taken, t);
      StaysBare(c, es[1..], Added(claimed, id), Added(taken, id), t - 1);
    }
  }

  /** The same for an entry that stands behind entries none of which takes its id. */
  lemma {:induction false} StaysBehind(c: Codec, front: seq<Entry>, mine: seq<Entry>, whole: seq<Entry>,
          taken: set<Id>, k: nat, x: Id)
    requires front + mine <= whole && k < |mine|
    requires mine[k].ids == [x] && RowId(mine[k].row) == Some(x) && mine[k].baseId.None? && !IsDerived(x)
    requires (forall s | 0 <= s < |front| :: NeverTakes(front[s], x)) && forall j | 0 <= j < k :: NeverTakes(mine[j], x)
    ensures |front| + k < |whole| && Assign(c, whole, {}, taken)[|front| + k] == mine[k].row
  {
    var all := front + mine;
    assert forall s | 0 <= s < |all| :: whole[s] == all[s];
    forall s | 0 <= s < |front| + k ensures NeverTakes(whole[s], x) {
      assert whole[s] == if s < |front| then front[s] else mine[s - |front|];
    }
    assert whole[|front| + k] == mine[k];
    Stays(c, whole, {}, taken, |front| + k, x);
  }

  // ---------------------------------------------------------------- where a group's entries stand

  function Offset(ordered: seq<Cluster>, keys: seq<Row>, i: nat): nat
    requires i <= |keys|
  {
    |Logical(ordered, keys[..i])|
  }

  lemma {:induction false} PartOfLogical(ordered: seq<Cluster>, keys: seq<Row>, i: nat)
    requires i < |keys|
    ensures Logical(ordered, keys[..i]) + EntriesOf(ordered, Group(ordered, keys[i])) <= Logical(ordered, keys)
  {
    hide *;
    TakeSnoc(keys, i);
    LogicalSnoc(ordered, keys[..i], keys[i]);
    LogicalPrefix(ordered, keys, i + 1);
  }

  lemma {:induction false} EntryOrigin(ordered: seq<Cluster>, keys: seq<Row>, e: Entry) returns (q: Row)
    requires e in Logical(ordered, keys)
    ensures q in keys && e in EntriesOf(ordered, Group(ordered, q))
  {
    var front, last := keys[..|keys| - 1], keys[|keys| - 1];
    LastSplit(keys);
    if e in EntriesOf(ordered, Group(ordered, last)) {
      q := last;
    } else {
      q := EntryOrigin(ordered, front, e);
    }
  }

  /** The ids an entry can take, and the id a renumbering would start from, come from its own group. */
  lemma {:induction false} EntryFromGroup(ordered: seq<Cluster>, p: Row, e: Entry, x: Id)
    requires e in EntriesOf(ordered, Group(ordered, p)) && Group(ordered, p) != []
    requires x in e.ids || e.baseId == Some(x) || Like(e) == Some(x)
    ensures exists cu :: cu in Group(ordered, p) && x in ClusterIds(cu)
  {
    hide *;
    var g := Group(ordered, p);
    if Collapses(ordered, g) {
      FoldedCarries(ordered, g, e, x);
    } else {
      var i := PlainIndex(ordered, g, e);
      SingleCarries(g[i], x);
      assert g[i] in g;
    }
  }

  lemma {:induction false} PlainIndex(ordered: seq<Cluster>, g: seq<Cluster>, e: Entry) returns (i: nat)
    requires e in EntriesOf(ordered, g) && !Collapses(ordered, g)
    ensures i < |g| && e == Single(g[i])
  {
    hide Collapses, Single;
    i :| 0 <= i < |g| && e == Single(g[i]);
  }

  lemma {:induction false} SingleCarries(cu: Cluster, x: Id)
    requires var e := Single(cu); x in e.ids || e.baseId == Some(x) || Like(e) == Some(x)
    ensures x in ClusterIds(cu)
  {
    GroupIdsHold([cu]);
    assert [cu][0] in [cu];
    hide ClusterIds;
    if ClusterIds(cu) != [] {
      assert ClusterIds(cu)[0] in ClusterIds(cu);
    }
  }

  lemma {:induction false} FoldedCarries(ordered: seq<Cluster>, g: seq<Cluster>, e: Entry, x: Id)
    requires e in EntriesOf(ordered, g) && Collapses(ordered, g) && g != []
    requires x in e.ids || e.baseId == Some(x) || Like(e) == Some(x)
    ensures exists cu :: cu in g && x in ClusterIds(cu)
  {
    GroupIdsHold(g);
    hide Collapses, ClusterIds;
    assert g[0] in g;
    if x in GroupIds(g) {
      assert x in AllIds(g);
    }
  }

  lemma {:induction false} GroupIdsHold(g: seq<Cluster>)
    ensures forall cu | cu in g :: RowId(cu.row).Some? ==> cu.row.id.value in ClusterIds(cu)
    ensures forall cu | cu in g :: cu.baseId.Some? ==> cu.baseId.value in ClusterIds(cu)
    ensures GroupIds(g) != [] ==> GroupIds(g)[0] in AllIds(g)
  {
    if GroupIds(g) != [] {
      assert GroupIds(g)[0] in GroupIds(g);
    }
  }

  // ---------------------------------------------------------------- the boards in question

  /** Clusters each seen under one number or prefixed id, no two of one row. */
  ghost predicate OwnBoard(ordered: seq<Cluster>) {
    && NoDuplicates(ordered) && RowsDetermine(ordered)
    && forall cu | cu in ordered :: OwnCluster(cu) && (RowId(cu.row).Some? ==> Numeric(cu.row.id.value))
  }

  ghost predicate RowsDetermine(ordered: seq<Cluster>) {
    forall x, y | x in ordered && y in ordered && x.row == y.row :: x == y
  }

  /** Where lookalikes are left apart, nobody disputes the ids of the new ones. */
  ghost predicate UndisputedTies(ordered: seq<Cluster>) {
    forall p | p in Contents(ordered) && !Collapses(ordered, Group(ordered, p))
        && |Filter(IsNew, Group(ordered, p))| > 1 ::
      forall cu, id | cu in Filter(IsNew, Group(ordered, p)) && id in ClusterIds(cu) :: !Contested(ordered, id)
  }

  /** An undisputed id of a group left apart is carried by one cluster only. */
  lemma {:induction false} OnlyCarrier(ordered: seq<Cluster>, x: Cluster, y: Cluster, id: Id)
    requires OwnBoard(ordered) && x in ordered && y in ordered
    requires id in ClusterIds(x) && id in ClusterIds(y) && !Contested(ordered, id)
    ensures x == y
  {
    assert RowId(x.row) == RowId(y.row) == Some(id);
    assert Payload(x.row) == Payload(y.row);
    assert x.row == y.row;
  }

  lemma {:induction false} EntryNeverTakes(ordered: seq<Cluster>, q: Row, e: Entry, x: Cluster, id: Id)
    requires OwnBoard(ordered) && x in ordered && id in ClusterIds(x) && !Contested(ordered, id)
    requires e in EntriesOf(ordered, Group(ordered, q)) && q != Payload(x.row)
    ensures NeverTakes(e, id)
  {
    if Group(ordered, q) != [] {
      if id in e.ids || e.baseId == Some(id) {
        EntryFromGroup(ordered, q, e, id);
        var y :| y in Group(ordered, q) && id in ClusterIds(y);
        OnlyCarrier(ordered, x, y, id);
      }
      LikeNumbered(ordered, q, e);
    }
  }

  lemma {:induction false} LikeNumbered(ordered: seq<Cluster>, q: Row, e: Entry)
    requires OwnBoard(ordered) && e in EntriesOf(ordered, Group(ordered, q)) && Group(ordered, q) != []
    ensures Like(e).Some? ==> Numeric(Like(e).value)
  {
    if Like(e).Some? {
      EntryFromGroup(ordered, q, e, Like(e).value);
      var y :| y in Group(ordered, q) && Like(e).value in ClusterIds(y);
      assert y in ordered;
    }
  }

  // ---------------------------------------------------------------- lookalikes in the result

  /** What the group of content `keys[i]` is when it is left apart. */
  ghost predicate Apart(ordered: seq<Cluster>, keys: seq<Row>, i: nat, g: seq<Cluster>) {
    && i < |keys| && !Collapses(ordered, g) && 1 < |g| && NoDuplicates(g)
    && forall cu | cu in g :: cu in ordered && Payload(cu.row) == keys[i]
  }

  /** A cluster of a group left apart, under an undisputed id and not of the base, stands in the result as it is. */
  lemma {:induction false} LookalikeStays(c: Codec, ordered: seq<Cluster>, keys: seq<Row>, i: nat, g: seq<Cluster>,
          k: nat, whole: seq<Entry>, taken: set<Id>, x: Id)
    requires OwnBoard(ordered) && NoDuplicates(keys) && i < |keys| && Apart(ordered, keys, i, g)
    requires k < |g| && IsNew(g[k]) && RowId(g[k].row) == Some(x) && !Contested(ordered, x)
    requires Logical(ordered, keys[..i]) + MapSeq(Single, g) <= whole
    ensures Offset(ordered, keys, i) + k < |whole|
    ensures Assign(c, whole, {}, taken)[Offset(ordered, keys, i) + k] == g[k].row
  {
    hide *;
    LookalikeFacts(ordered, keys, i, g, k, x);
    StaysBehind(c, Logical(ordered, keys[..i]), MapSeq(Single, g), whole, taken, k, x);
  }

  lemma {:induction false} LookalikeFacts(ordered: seq<Cluster>, keys: seq<Row>, i: nat, g: seq<Cluster>, k: nat, x: Id)
    requires OwnBoard(ordered) && NoDuplicates(keys) && i < |keys| && Apart(ordered, keys, i, g)
    requires k < |g| && IsNew(g[k]) && RowId(g[k].row) == Some(x) && !Contested(ordered, x)
    ensures var e, front := MapSeq(Single, g)[k], Logical(ordered, keys[..i]);
      && Offset(ordered, keys, i) == |front| && !IsDerived(x)
      && e.ids == [x] && e.row == g[k].row && RowId(e.row) == Some(x) && e.baseId.None?
      && (forall s | 0 <= s < |front| :: NeverTakes(front[s], x))
      && (forall j | 0 <= j < k :: NeverTakes(MapSeq(Single, g)[j], x))
  {
    assert g[k] in g && OwnCluster(g[k]);
    OneIdOnly(g[k]);
    ApartNotDerived(ordered, g, g[k]);
    EarlierNeverTake(ordered, keys, i, g[k], x);
    forall j | 0 <= j < k ensures NeverTakes(MapSeq(Single, g)[j], x) {
      BrotherNeverTakes(ordered, g, j, k, x);
    }
  }

  lemma {:induction false} IdlessStays(c: Codec, ordered: seq<Cluster>, keys: seq<Row>, i: nat, g: seq<Cluster>,
          k: nat, whole: seq<Entry>, taken: set<Id>)
    requires i <= |keys| && k < |g| && OwnCluster(g[k]) && IsNew(g[k]) && RowId(g[k].row).None?
    requires Logical(ordered, keys[..i]) + MapSeq(Single, g) <= whole
    ensures Offset(ordered, keys, i) + k < |whole|
    ensures Assign(c, whole, {}, taken)[Offset(ordered, keys, i) + k] == g[k].row
  {
    NoIdAtAll(g[k]);
    PrefixAt(Logical(ordered, keys[..i]), MapSeq(Single, g), whole, k);
    StaysBare(c, whole, {}, taken, |Logical(ordered, keys[..i])| + k);
  }

  lemma {:induction false} OneIdOnly(cu: Cluster)
    requires OwnCluster(cu) && RowId(cu.row).Some?
    ensures ClusterIds(cu) == [cu.row.id.value]
  {
    var ids, x := ClusterIds(cu), cu.row.id.value;
    assert x in ids;
    forall n | 0 <= n < |ids| ensures ids[n] == x {
      assert ids[n] in ids;
    }
    AllTheSame(ids, x);
  }

  lemma {:induction false} NoIdAtAll(cu: Cluster)
    requires OwnCluster(cu) && RowId(cu.row).None?
    ensures ClusterIds(cu) == []
  {
    NoMembers(ClusterIds(cu));
  }

  lemma {:induction false} ApartNotDerived(ordered: seq<Cluster>, g: seq<Cluster>, cu: Cluster)
    requires !Collapses(ordered, g) && |g| > 1 && cu in g && RowId(cu.row).Some?
    ensures !IsDerived(cu.row.id.value)
  {
    var x := cu.row.id.value;
    assert x in ClusterIds(cu);
    assert x in AllIds(g);
    assert x in GroupIds(g);
  }

  lemma {:induction false} EarlierNeverTake(ordered: seq<Cluster>, keys: seq<Row>, i: nat, cu: Cluster, x: Id)
    requires OwnBoard(ordered) && NoDuplicates(keys) && i < |keys|
    requires cu in ordered && Payload(cu.row) == keys[i] && x in ClusterIds(cu) && !Contested(ordered, x)
    ensures forall s | 0 <= s < Offset(ordered, keys, i) :: NeverTakes(Logical(ordered, keys[..i])[s], x)
  {
    var front := Logical(ordered, keys[..i]);
    forall s | 0 <= s < |front| ensures NeverTakes(front[s], x) {
      var q := EntryOrigin(ordered, keys[..i], front[s]);
      var n :| 0 <= n < i && keys[n] == q;
      EntryNeverTakes(ordered, q, front[s], cu, x);
    }
  }

  lemma {:induction false} BrotherNeverTakes(ordered: seq<Cluster>, g: seq<Cluster>, j: nat, k: nat, x: Id)
    requires OwnBoard(ordered) && (forall cu | cu in g :: cu in ordered) && NoDuplicates(g)
    requires j < k < |g| && x in ClusterIds(g[k]) && !Contested(ordered, x)
    ensures NeverTakes(Single(g[j]), x)
  {
    assert g[j] in g && g[k] in g;
    GroupIdsHold(g);
    if x in ClusterIds(g[j]) {
      OnlyCarrier(ordered, g[j], g[k], x);
    }
    if RowId(g[j].row).None? {
      NoIdAtAll(g[j]);
    }
  }

  // ---------------------------------------------------------------- the exact condition

  /** A board whose ids are numbers or prefixed numbers. */
  ghost predicate NumericBoard(rows: seq<Row>) {
    forall row | row in rows :: RowId(row).Some? ==> Numeric(row.id.value)
  }

  lemma {:induction false} IsOwnBoard(c: Codec, base: seq<Row>, ours: seq<Row>, theirs: seq<Row>)
    requires CanonInjective(c) && Coherent(base + ours + theirs) && NumericBoard(base + ours + theirs)
    ensures OwnBoard(Ordered(c, Build(c, Arrivals(base, ours, theirs))))
  {
    var cl := Build(c, Arrivals(base, ours, theirs));
    ClusterSet(c, base, ours, theirs);
    ClustersShaped(c, base, ours, theirs);
    OrderedSameClusters(c, cl);
    MergeCanonical.OrderedNoDuplicates(c, cl);
  }

  /** Mirror-image orders give every group the same place among the entries. */
  lemma {:induction false} SameOffset(a: seq<Cluster>, b: seq<Cluster>, keys: seq<Row>)
    requires multiset(a) == multiset(b)
    ensures |Logical(a, keys)| == |Logical(b, keys)|
  {
    if keys != [] {
      var front, last := keys[..|keys| - 1], keys[|keys| - 1];
      SameOffset(a, b, front);
      SameFilter(PaysAs(last), a, b);
      SameCollapse(a, b, Group(a, last), Group(b, last));
      SameMembers(Group(a, last), Group(b, last));
    }
  }

  /** The new part of a group left apart shows in the result row by row. */
  lemma {:induction false} NewPartShows(c: Codec, ordered: seq<Cluster>, keys: seq<Row>, i: nat, g: seq<Cluster>,
          j: nat, whole: seq<Entry>, taken: set<Id>)
    requires OwnBoard(ordered) && NoDuplicates(keys) && i < |keys| && Apart(ordered, keys, i, g) && BaseLeads(g)
    requires Logical(ordered, keys[..i]) + MapSeq(Single, g) <= whole
    requires j < |Filter(IsNew, g)| && forall id | id in ClusterIds(Filter(IsNew, g)[j]) :: !Contested(ordered, id)
    ensures var at := Offset(ordered, keys, i) + |Filter(InBase, g)| + j;
      at < |whole| && Assign(c, whole, {}, taken)[at] == Filter(IsNew, g)[j].row
  {
    hide *;
    var k := |Filter(InBase, g)| + j;
    NewAt(ordered, keys, i, g, j);
    if RowId(g[k].row).Some? {
      LookalikeStays(c, ordered, keys, i, g, k, whole, taken, RowId(g[k].row).value);
    } else {
      IdlessStays(c, ordered, keys, i, g, k, whole, taken);
    }
  }

  lemma {:induction false} NewAt(ordered: seq<Cluster>, keys: seq<Row>, i: nat, g: seq<Cluster>, j: nat)
    requires OwnBoard(ordered) && Apart(ordered, keys, i, g) && BaseLeads(g) && j < |Filter(IsNew, g)|
    ensures var k := |Filter(InBase, g)| + j;
      && k < |g| && g[k] == Filter(IsNew, g)[j] && IsNew(g[k]) && OwnCluster(g[k])
      && (RowId(g[k].row).Some? ==> RowId(g[k].row).value in ClusterIds(g[k]))
  {
    assert Filter(IsNew, g)[j] in Filter(IsNew, g);
  }

  lemma {:induction false} GroupApart(ordered: seq<Cluster>, i: nat)
    requires i < |Contents(ordered)| && NoDuplicates(ordered)
    requires var g := Group(ordered, Contents(ordered)[i]); !Collapses(ordered, g) && 1 < |g|
    ensures Apart(ordered, Contents(ordered), i, Group(ordered, Contents(ordered)[i]))
    ensures Logical(ordered, Contents(ordered)[..i]) + MapSeq(Single, Group(ordered, Contents(ordered)[i]))
         <= Logical(ordered, Contents(ordered))
  {
    FilterNoDuplicates(PaysAs(Contents(ordered)[i]), ordered);
    PartOfLogical(ordered, Contents(ordered), i);
  }

  lemma {:induction false} SameRowsSameClusters(a: seq<Cluster>, g: seq<Cluster>, h: seq<Cluster>)
    requires |g| == |h| && forall k | 0 <= k < |g| :: g[k].row == h[k].row
    requires RowsDetermine(a) && forall cu | cu in g || cu in h :: cu in a
    ensures g == h
  {
    forall k | 0 <= k < |g| ensures g[k] == h[k] {
      assert g[k] in g && h[k] in h;
    }
  }

  /** Equal results show lookalikes left apart in equal order. */
  lemma {:induction false} EqualResultsEqualTies(c: Codec, a: seq<Cluster>, b: seq<Cluster>, i: nat)
    requires SameButTies(a, b) && OwnBoard(a) && OwnBoard(b) && UndisputedTies(a) && UndisputedTies(b)
    requires i < |Contents(a)| && Settle(c, a) == Settle(c, b)
    requires var p := Contents(a)[i]; !Collapses(a, Group(a, p)) && BaseLeads(Group(a, p)) && BaseLeads(Group(b, p))
    ensures var p := Contents(a)[i]; Filter(IsNew, Group(a, p)) == Filter(IsNew, Group(b, p))
  {
    var keys := Contents(a);
    var p := keys[i];
    var x, y := Filter(IsNew, Group(a, p)), Filter(IsNew, Group(b, p));
    assert Contents(b) == keys && p in keys;
    MirrorGroups(a, b, p);
    if |x| <= 1 {
      ShortSame(x, y);
    } else {
      TiesUndisputed(a, p);
      TiesUndisputed(b, p);
      GroupApart(a, i);
      GroupApart(b, i);
      SameOffset(a, b, keys[..i]);
      SameMembers(a, b);
      assert Assign(c, Logical(a, keys), {}, InitialTaken(a)) == Assign(c, Logical(b, keys), {}, InitialTaken(b));
      assert Offset(a, keys, i) == Offset(b, keys, i);
      hide *;
      EqualTies(c, a, b, keys, i, Group(a, p), Group(b, p), Logical(a, keys), Logical(b, keys), InitialTaken(a),
          InitialTaken(b));
    }
  }

  lemma {:induction false} TiesUndisputed(ordered: seq<Cluster>, p: Row)
    requires UndisputedTies(ordered) && p in Contents(ordered)
    requires !Collapses(ordered, Group(ordered, p)) && |Filter(IsNew, Group(ordered, p))| > 1
    ensures Undisputed(ordered, Filter(IsNew, Group(ordered, p)))
  {
    var x := Filter(IsNew, Group(ordered, p));
    assert forall j | 0 <= j < |x| :: x[j] in x;
  }

  lemma {:induction false} MirrorGroups(a: seq<Cluster>, b: seq<Cluster>, p: Row)
    requires SameButTies(a, b)
    ensures var g, h := Group(a, p), Group(b, p);
      && |g| == |h| && (Collapses(a, g) <==> Collapses(b, h))
      && multiset(Filter(IsNew, g)) == multiset(Filter(IsNew, h)) && |Filter(IsNew, g)| == |Filter(IsNew, h)|
      && |Filter(InBase, g)| == |Filter(InBase, h)|
  {
    var g, h := Group(a, p), Group(b, p);
    SameFilter(PaysAs(p), a, b);
    SameFilter(IsNew, g, h);
    SameFilter(InBase, g, h);
    SameMembers(g, h);
    SameMembers(Filter(IsNew, g), Filter(IsNew, h));
    SameMembers(Filter(InBase, g), Filter(InBase, h));
    SameCollapse(a, b, g, h);
  }

  ghost predicate Undisputed(ordered: seq<Cluster>, news: seq<Cluster>) {
    forall j, id | 0 <= j < |news| && id in ClusterIds(news[j]) :: !Contested(ordered, id)
  }

  lemma {:induction false} EqualTies(c: Codec, a: seq<Cluster>, b: seq<Cluster>, keys: seq<Row>, i: nat,
          g: seq<Cluster>, h: seq<Cluster>, ds: seq<Entry>, es: seq<Entry>, s: set<Id>, t: set<Id>)
    requires OwnBoard(a) && OwnBoard(b) && NoDuplicates(keys) && forall cu :: cu in a <==> cu in b
    requires Apart(a, keys, i, g) && Apart(b, keys, i, h) && BaseLeads(g) && BaseLeads(h)
    requires Logical(a, keys[..i]) + MapSeq(Single, g) <= ds && Logical(b, keys[..i]) + MapSeq(Single, h) <= es
    requires Offset(a, keys, i) == Offset(b, keys, i) && |Filter(InBase, g)| == |Filter(InBase, h)|
    requires |Filter(IsNew, g)| == |Filter(IsNew, h)| && Undisputed(a, Filter(IsNew, g))
    requires Undisputed(b, Filter(IsNew, h))
    requires Assign(c, ds, {}, s) == Assign(c, es, {}, t)
    ensures Filter(IsNew, g) == Filter(IsNew, h)
  {
    var x, y := Filter(IsNew, g), Filter(IsNew, h);
    forall j | 0 <= j < |x| ensures x[j].row == y[j].row {
      NewPartsMeet(c, a, b, keys, i, g, h, ds, es, s, t, j);
    }
    assert forall cu | cu in x || cu in y :: cu in a || cu in b;
    SameRowsSameClusters(a, x, y);
  }

  lemma {:induction false} NewPartsMeet(c: Codec, a: seq<Cluster>, b: seq<Cluster>, keys: seq<Row>, i: nat,
          g: seq<Cluster>, h: seq<Cluster>, ds: seq<Entry>, es: seq<Entry>, s: set<Id>, t: set<Id>, j: nat)
    requires OwnBoard(a) && OwnBoard(b) && NoDuplicates(keys) && i < |keys|
    requires Apart(a, keys, i, g) && Apart(b, keys, i, h) && BaseLeads(g) && BaseLeads(h)
    requires Logical(a, keys[..i]) + MapSeq(Single, g) <= ds && Logical(b, keys[..i]) + MapSeq(Single, h) <= es
    requires Offset(a, keys, i) == Offset(b, keys, i) && |Filter(InBase, g)| == |Filter(InBase, h)|
    requires j < |Filter(IsNew, g)| == |Filter(IsNew, h)|
    requires forall id | id in ClusterIds(Filter(IsNew, g)[j]) :: !Contested(a, id)
    requires forall id | id in ClusterIds(Filter(IsNew, h)[j]) :: !Contested(b, id)
    requires Assign(c, ds, {}, s) == Assign(c, es, {}, t)
    ensures Filter(IsNew, g)[j].row == Filter(IsNew, h)[j].row
  {
    hide *;
    NewPartShows(c, a, keys, i, g, j, ds, s);
    NewPartShows(c, b, keys, i, h, j, es, t);
  }

  /** Ties are disputed alike in mirror-image orders. */
  lemma {:induction false} TiesMirror(a: seq<Cluster>, b: seq<Cluster>)
    requires SameButTies(a, b) && UndisputedTies(a)
    ensures UndisputedTies(b)
  {
    assert Contents(a) == Contents(b);
    forall p | p in Contents(b) && !Collapses(b, Group(b, p)) && |Filter(IsNew, Group(b, p))| > 1
      ensures forall cu, id | cu in Filter(IsNew, Group(b, p)) && id in ClusterIds(cu) :: !Contested(b, id)
    {
      MirrorGroups(a, b, p);
      MirrorUndisputed(a, b, Filter(IsNew, Group(a, p)), Filter(IsNew, Group(b, p)));
    }
  }

  lemma {:induction false} MirrorUndisputed(a: seq<Cluster>, b: seq<Cluster>, x: seq<Cluster>, y: seq<Cluster>)
    requires multiset(a) == multiset(b) && multiset(x) == multiset(y)
    requires forall cu, id | cu in x && id in ClusterIds(cu) :: !Contested(a, id)
    ensures forall cu, id | cu in y && id in ClusterIds(cu) :: !Contested(b, id)
  {
    SameMembers(a, b);
    SameMembers(x, y);
    forall id ensures Contested(a, id) <==> Contested(b, id) {
    }
  }

  /** ORDER INDEPENDENCE, exactly. On boards of number or prefixed ids with coherent versions, where lookalikes left
      apart dispute no id, swapping the sides gives the same result if and only if the new rows of each content that
      does not fold stand in the same order both ways. */
  lemma {:induction false} OrderExactly(c: Codec, base: seq<Row>, ours: seq<Row>, theirs: seq<Row>)
    requires CanonInjective(c) && Coherent(base + ours + theirs)
    requires OneShape(c, base + ours + theirs) && NumericBoard(base + ours + theirs)
    requires UndisputedTies(Ordered(c, Build(c, Arrivals(base, ours, theirs))))
    ensures Merged(c, base, ours, theirs) == Merged(c, base, theirs, ours)
       <==> SameUnfolded(Ordered(c, Build(c, Arrivals(base, ours, theirs))),
           Ordered(c, Build(c, Arrivals(base, theirs, ours))))
  {
    var a, b := Ordered(c, Build(c, Arrivals(base, ours, theirs))), Ordered(c, Build(c, Arrivals(base, theirs, ours)));
    if SameUnfolded(a, b) {
      SwapsAlike(c, base, ours, theirs);
    }
    if Merged(c, base, ours, theirs) == Merged(c, base, theirs, ours) {
      SwapSides(base, ours, theirs);
      SwappedOrders(c, base, ours, theirs);
      IsOwnBoard(c, base, ours, theirs);
      IsOwnBoard(c, base, theirs, ours);
      TiesMirror(a, b);
      forall p | p in Contents(a) && !Collapses(a, Group(a, p))
        ensures Filter(IsNew, Group(a, p)) == Filter(IsNew, Group(b, p))
      {
        var i :| 0 <= i < |Contents(a)| && Contents(a)[i] == p;
        EqualResultsEqualTies(c, a, b, i);
      }
    }
  }
}
