/** Where the promises of the merge end: exact conditions, and boards that show each one is needed. */
module MergeLimits {
  import opened Prelude
  import opened BoardRows
  import opened IdSpace
  import opened MergeSpec
  import opened MergeIds
  import opened MergeSymmetry

  // ---------------------------------------------------------------- two appends

  ghost predicate NumberedRow(row: Row) {
    row.Obj? && row.id.Some? && row.id.value.Num?
  }

  function Newcomer(row: Row): Cluster {
    Cluster(row, None, None, Listed(RowId(row)))
  }

  lemma {:induction false} NewcomerIds(row: Row)
    requires RowId(row).Some?
    ensures ClusterIds(Newcomer(row)) == [row.id.value]
  {
    var id := row.id.value;
    DistinctFew(id, id);
    assert Listed(None) + Listed(RowId(row)) + Listed(RowId(row)) == [id, id];
  }

  lemma {:induction false} NewcomerListed(row: Row)
    ensures ClusterIds(Newcomer(row)) == Listed(RowId(row))
  {
    if RowId(row).Some? {
      NewcomerIds(row);
    }
  }

  function OfBase(row: Row, pos: nat): Cluster {
    Cluster(row, Some(pos), RowId(row), Listed(RowId(row)))
  }

  function Opened(a: Arrival): Cluster {
    if a.pos.Some? then OfBase(a.row, a.pos.value) else Newcomer(a.row)
  }

  lemma {:induction false} OfBaseIds(row: Row, pos: nat)
    requires RowId(row).Some?
    ensures ClusterIds(OfBase(row, pos)) == [row.id.value]
  {
    var id := row.id.value;
    DistinctFew(id, id);
    DistinctSnoc([id, id], id);
    assert Listed(RowId(row)) + Listed(RowId(row)) + Listed(RowId(row)) == [id, id] + [id];
  }

  lemma {:induction false} BuildSnoc(c: Codec, arrivals: seq<Arrival>, a: Arrival)
    ensures Build(c, arrivals + [a]) == Absorb(c, Build(c, arrivals), a)
  {
    assert (arrivals + [a])[..|arrivals + [a]| - 1] == arrivals;
  }

  /** A row that is a version of nothing seen so far opens a cluster. */
  lemma {:induction false} BuildFresh(c: Codec, arrivals: seq<Arrival>, cl: seq<Cluster>, a: Arrival)
    requires Build(c, arrivals) == cl
    requires forall i | 0 <= i < |cl| :: !SameRow(cl[i].row, a.row)
    ensures Build(c, arrivals + [a]) == cl + [Opened(a)]
  {
    BuildSnoc(c, arrivals, a);
    assert NoteRow(c, NewCluster(a.row), a) == Opened(a);
  }

  lemma {:induction false} BuildThree(c: Codec, a: Arrival, b: Arrival, d: Arrival)
    requires !SameRow(a.row, b.row) && !SameRow(a.row, d.row) && !SameRow(b.row, d.row)
    ensures Build(c, [a, b]) == [Opened(a), Opened(b)]
    ensures Build(c, [a, b, d]) == [Opened(a), Opened(b), Opened(d)]
  {
    BuildPair(c, a, b);
    BuildFresh(c, [a, b], [Opened(a), Opened(b)], d);
    assert [a, b] + [d] == [a, b, d];
    assert [Opened(a), Opened(b)] + [Opened(d)] == [Opened(a), Opened(b), Opened(d)];
  }

  lemma {:induction false} BuildPair(c: Codec, a: Arrival, b: Arrival)
    requires !SameRow(a.row, b.row)
    ensures Build(c, [a, b]) == [Opened(a), Opened(b)]
  {
    BuildFresh(c, [], [], a);
    assert [] + [a] == [a] && [] + [Opened(a)] == [Opened(a)];
    BuildFresh(c, [a], [Opened(a)], b);
    assert [a] + [b] == [a, b];
  }

  lemma {:induction false} BuildTwo(c: Codec, a: Row, b: Row)
    requires !SameRow(a, b)
    ensures Build(c, Arrivals([], [a], [b])) == [Newcomer(a), Newcomer(b)]
  {
    var x, y := Arrival(a, None), Arrival(b, None);
    assert Arrivals([], [a], [b]) == [x, y];
    BuildPair(c, x, y);
  }

  lemma {:induction false} AssignFirst(c: Codec, e: Entry, es: seq<Entry>, claimed: set<Id>, taken: set<Id>,
          id: Option<Id>)
    requires Choice(c, e, claimed, taken) == id
    ensures Assign(c, [e] + es, claimed, taken)
        == [WithId(e.row, id)] + Assign(c, es, Added(claimed, id), Added(taken, id))
  {
    assert ([e] + es)[1..] == es;
  }

  lemma {:induction false} DropTail(c: Codec, es: seq<Entry>, t: nat, claimed: set<Id>, taken: set<Id>, k: nat)
    requires t <= k < |es|
    ensures var id := Choice(c, es[t], claimed, taken);
      Assign(c, es[t..], claimed, taken)[k - t]
        == if k == t then WithId(es[t].row, id)
            else Assign(c, es[t + 1..], Added(claimed, id), Added(taken, id))[k - (t + 1)]
  {
    assert es[t..][0] == es[t] && es[t..][1..] == es[t + 1..];
  }

  /** An entry with one candidate takes it when it is free, and has nothing of its own otherwise. */
  lemma {:induction false} OneCandidate(e: Entry, claimed: set<Id>, id: Id)
    requires e.ids == [id] && (e.baseId.None? || e.baseId == Some(id))
    ensures OwnChoice(e, claimed) == if id !in claimed then Some(id) else None
  {
    SortedStays(IdLe, e.ids);
  }

  lemma {:induction false} AllNew(s: seq<Cluster>)
    requires forall i | 0 <= i < |s| :: IsNew(s[i])
    ensures Filter(IsNew, s) == s && Filter(InBase, s) == []
  {
    FilterAll(IsNew, s);
    FilterNone(InBase, s);
  }

  lemma {:induction false} SameContentLe(c: Codec, a: Row, b: Row)
    requires Payload(a) == Payload(b)
    ensures OrderLe(c, a, b)
  {
    StampOfPayload(a);
    StampOfPayload(b);
    OrderLeTotal(c, a, b);
  }

  lemma {:induction false} NewInOrder(c: Codec, s: seq<Cluster>)
    requires (forall i | 0 <= i < |s| :: IsNew(s[i])) && SortedBy(ContentLe(c), s)
    ensures Ordered(c, s) == s
  {
    AllNew(s);
    SortedStays(ContentLe(c), s);
    SortedStays(BasePosLe, []);
    assert [] + s == s;
  }

  lemma {:induction false} OrderTwo(c: Codec, x: Cluster, y: Cluster)
    requires IsNew(x) && IsNew(y) && OrderLe(c, x.row, y.row)
    ensures Ordered(c, [x, y]) == [x, y]
  {
    hide OrderLe, Ordered;
    assert SortedBy(ContentLe(c), [x, y]);
    NewInOrder(c, [x, y]);
  }

  lemma {:induction false} DifferentContents(a: Row, b: Row)
    requires a.Obj? && b.Obj? && !AgreeOnIdentity(a.fields, b.fields)
    ensures Payload(a) != Payload(b) && !SameRow(a, b)
  {
    assert Payload(a).fields == a.fields && Payload(b).fields == b.fields;
  }

  lemma {:induction false} SettleIs(c: Codec, ordered: seq<Cluster>)
    ensures Settle(c, ordered) == Assign(c, Logical(ordered, Contents(ordered)), {}, InitialTaken(ordered))
  {
  }

  lemma {:induction false} MergedIs(c: Codec, base: seq<Row>, ours: seq<Row>, theirs: seq<Row>)
    ensures Merged(c, base, ours, theirs) == Settle(c, Ordered(c, Build(c, Arrivals(base, ours, theirs))))
  {
  }

  lemma {:induction false} ThreeSorted(c: Codec, x: Cluster, y: Cluster, z: Cluster)
    requires OrderLe(c, x.row, y.row) && OrderLe(c, y.row, z.row) && OrderLe(c, x.row, z.row)
    ensures SortedBy(ContentLe(c), [x, y, z])
  {
    hide OrderLe;
  }

  lemma {:induction false} ThreeInOrder(c: Codec, x: Cluster, y: Cluster, z: Cluster)
    requires IsNew(x) && IsNew(y) && IsNew(z)
    requires OrderLe(c, x.row, y.row) && OrderLe(c, y.row, z.row)
    ensures Ordered(c, [x, y, z]) == [x, y, z]
  {
    hide OrderLe, Ordered;
    OrderLeTransitive(c, x.row, y.row, z.row);
    ThreeSorted(c, x, y, z);
    NewInOrder(c, [x, y, z]);
  }

  lemma {:induction false} SingleRow(cu: Cluster)
    ensures Single(cu).row == cu.row
  {
  }

  // ---------------------------------------------------------------- groups and entries

  lemma {:induction false} TwoSingles(x: Cluster, y: Cluster)
    ensures MapSeq(Single, [x, y]) == [Single(x), Single(y)]
  {
  }

  lemma {:induction false} ContentsOfLookalikes(x: Cluster, y: Cluster, p: Row)
    requires Payload(x.row) == p && Payload(y.row) == p
    ensures Contents([x, y]) == [p] && Group([x, y], p) == [x, y]
  {
    FilterAll(PaysAs(p), [x, y]);
    assert MapSeq(PayloadOf, [x, y]) == [p, p];
    DistinctFew(p, p);
  }

  /** Clusters of pairwise different contents are an entry each. */
  lemma {:induction false} ApartEntries(s: seq<Cluster>)
    requires NoDuplicates(MapSeq(PayloadOf, s))
    ensures Logical(s, Contents(s)) == MapSeq(Single, s)
  {
    var p := MapSeq(PayloadOf, s);
    DistinctStays(p);
    forall i, j | 0 <= i < |s| && 0 <= j < |s| && j != i ensures Payload(s[j].row) != Payload(s[i].row) {
      assert p[i] != p[j];
    }
    LogicalSingles(s, |s|);
    assert s[..|s|] == s;
  }

  lemma {:induction false} TwoShown(x: Cluster, y: Cluster)
    requires Payload(x.row) != Payload(y.row)
    ensures Contents([x, y]) == [Payload(x.row), Payload(y.row)]
    ensures NoDuplicates(MapSeq(PayloadOf, [x, y]))
  {
    assert MapSeq(PayloadOf, [x, y]) == [Payload(x.row), Payload(y.row)];
    hide Payload;
    DistinctFew(Payload(x.row), Payload(y.row));
  }

  lemma {:induction false} TwoApartEntries(x: Cluster, y: Cluster)
    requires Payload(x.row) != Payload(y.row)
    ensures Logical([x, y], Contents([x, y])) == [Single(x), Single(y)]
    ensures Contents([x, y]) == [Payload(x.row), Payload(y.row)] && Group([x, y], Payload(y.row)) == [y]
  {
    hide *;
    TwoShown(x, y);
    ApartEntries([x, y]);
    TwoSingles(x, y);
    AloneInGroup([x, y], 1);
  }

  lemma {:induction false} LogicalOne(ordered: seq<Cluster>, p: Row)
    ensures Logical(ordered, [p]) == EntriesOf(ordered, Group(ordered, p))
  {
    assert [p][..0] == [];
  }

  lemma {:induction false} GroupIdsFrom(g: seq<Cluster>, id: Id)
    ensures id in GroupIds(g) <==> exists cu :: cu in g && id in ClusterIds(cu)
  {
    assert id in GroupIds(g) <==> id in AllIds(g);
  }

  lemma {:induction false} NoneDerived(g: seq<Cluster>)
    requires forall cu, id | cu in g && id in ClusterIds(cu) :: !IsDerived(id)
    ensures !AnyDerived(GroupIds(g))
  {
    forall i | i in GroupIds(g) ensures !IsDerived(i) {
      GroupIdsFrom(g, i);
    }
  }

  /** One id of the group is claimed by nobody else, and none was derived: the rows stay apart. */
  lemma {:induction false} UndisputedApart(ordered: seq<Cluster>, g: seq<Cluster>, m: Id)
    requires exists cu :: cu in g && m in ClusterIds(cu)
    requires !Contested(ordered, m) && forall cu, id | cu in g && id in ClusterIds(cu) :: !IsDerived(id)
    ensures EntriesOf(ordered, g) == MapSeq(Single, g)
  {
    GroupIdsFrom(g, m);
    NoneDerived(g);
    NotAllContested(ordered, GroupIds(g), m);
  }

  lemma {:induction false} NotAllContested(ordered: seq<Cluster>, ids: seq<Id>, id: Id)
    requires id in ids && !Contested(ordered, id)
    ensures !AllContested(ordered, ids)
  {
  }

  lemma {:induction false} AloneUncontested(ordered: seq<Cluster>, p: Row, id: Id)
    requires forall cu | cu in ordered :: Payload(cu.row) == p
    ensures !Contested(ordered, id)
  {
  }

  // ---------------------------------------------------------------- one append a side

  lemma {:induction false} SortTwo<T>(le: (T, T) -> bool, x: T, y: T)
    ensures SortBy(le, [x, y]) == if le(x, y) then [x, y] else [y, x]
  {
    SortedStays(le, [y]);
    assert [x, y][1..] == [y] && [y][1..] == [];
    assert Insert(le, x, []) == [x] + [];
    assert [x] + [y] == [x, y] && [y] + ([x] + []) == [y, x];
  }

  lemma {:induction false} OrderEither(c: Codec, x: Cluster, y: Cluster)
    requires IsNew(x) && IsNew(y)
    ensures Ordered(c, [x, y]) == if OrderLe(c, x.row, y.row) then [x, y] else [y, x]
  {
    hide SortBy, OrderLe, Filter;
    AllNew([x, y]);
    SortTwo(ContentLe(c), x, y);
    SortedStays(BasePosLe, []);
    assert [] + SortBy(ContentLe(c), [x, y]) == SortBy(ContentLe(c), [x, y]);
  }

  /** The id on the row is one a merge invented. */
  predicate Renumbered(row: Row) {
    RowId(row).Some? && IsDerived(row.id.value)
  }

  /** Rows of one content that nobody can tell to be one row. */
  predicate Lookalike(a: Row, b: Row) {
    Payload(a) == Payload(b) && RowKey(a) != RowKey(b)
  }

  lemma {:induction false} LookalikeFacts(a: Row, b: Row)
    requires Lookalike(a, b)
    ensures a.Obj? && b.Obj? && RowId(a) != RowId(b) && !SameRow(a, b) && (RowId(a).Some? || RowId(b).Some?)
    ensures forall id :: a.(id := id) == b.(id := id)
  {
  }

  /** Where all rows show one content no id is disputed. */
  lemma {:induction false} LookalikesApart(x: Cluster, y: Cluster)
    requires Payload(x.row) == Payload(y.row)
    requires forall id | id in ClusterIds(x) || id in ClusterIds(y) :: !IsDerived(id)
    ensures EntriesOf([x, y], [x, y]) == [Single(x), Single(y)]
  {
    var ordered := [x, y];
    forall cu | cu in ordered ensures cu == x || cu == y {
    }
    NoneDerived(ordered);
    NobodyDisputes(ordered, Payload(x.row), GroupIds(ordered));
    TwoSingles(x, y);
  }

  lemma {:induction false} NobodyDisputes(ordered: seq<Cluster>, p: Row, ids: seq<Id>)
    requires forall cu | cu in ordered :: Payload(cu.row) == p
    ensures ids != [] ==> !AllContested(ordered, ids)
  {
    if ids != [] {
      AloneUncontested(ordered, p, ids[0]);
      NotAllContested(ordered, ids, ids[0]);
    }
  }

  /** A newcomer whose id nobody claimed stands as it came. */
  lemma {:induction false} OwnEntry(c: Codec, row: Row, claimed: set<Id>, taken: set<Id>)
    requires RowId(row).Some? ==> RowId(row).value !in claimed
    ensures var e := Single(Newcomer(row));
      Choice(c, e, claimed, taken) == RowId(row) && WithId(e.row, RowId(row)) == row
  {
    NewcomerListed(row);
    if RowId(row).Some? {
      OneCandidate(Single(Newcomer(row)), claimed, row.id.value);
    }
  }

  /** Lookalikes under ids no merge invented stay apart, in order of arrival. */
  lemma {:induction false} LookalikesStayApart(c: Codec, a: Row, b: Row)
    requires Lookalike(a, b) && !Renumbered(a) && !Renumbered(b)
    ensures Merged(c, [], [a], [b]) == [a, b]
  {
    LookalikeFacts(a, b);
    LookalikesOrdered(c, a, b);
    LookalikeEntries(a, b);
    hide *;
    MergedIs(c, [], [a], [b]);
    SettleIs(c, [Newcomer(a), Newcomer(b)]);
    TwoOwnIds(c, a, b, InitialTaken([Newcomer(a), Newcomer(b)]));
  }

  lemma {:induction false} LookalikesOrdered(c: Codec, a: Row, b: Row)
    requires Lookalike(a, b)
    ensures Ordered(c, Build(c, Arrivals([], [a], [b]))) == [Newcomer(a), Newcomer(b)]
  {
    LookalikeFacts(a, b);
    BuildTwo(c, a, b);
    SameContentLe(c, a, b);
    OrderTwo(c, Newcomer(a), Newcomer(b));
  }

  lemma {:induction false} LookalikeEntries(a: Row, b: Row)
    requires Lookalike(a, b) && !Renumbered(a) && !Renumbered(b)
    ensures var x, y := Newcomer(a), Newcomer(b);
      Logical([x, y], Contents([x, y])) == [Single(x), Single(y)]
  {
    var x, y, p := Newcomer(a), Newcomer(b), Payload(a);
    NewcomerListed(a);
    NewcomerListed(b);
    ContentsOfLookalikes(x, y, p);
    LookalikesApart(x, y);
    LogicalOne([x, y], p);
  }

  lemma {:induction false} TwoOwnIds(c: Codec, a: Row, b: Row, taken: set<Id>)
    requires RowId(a) != RowId(b)
    ensures Assign(c, [Single(Newcomer(a)), Single(Newcomer(b))], {}, taken) == [a, b]
  {
    hide *;
    var d, e := Single(Newcomer(a)), Single(Newcomer(b));
    OtherClaimed(RowId(a), RowId(b));
    OwnEntry(c, a, {}, taken);
    OwnEntry(c, b, Added({}, RowId(a)), Added(taken, RowId(a)));
    AssignFirst(c, d, [e], {}, taken, RowId(a));
    AssignFirst(c, e, [], Added({}, RowId(a)), Added(taken, RowId(a)), RowId(b));
    NothingLeft(c, Added(Added({}, RowId(a)), RowId(b)), Added(Added(taken, RowId(a)), RowId(b)));
    assert [d] + [e] == [d, e] && [e] + [] == [e] && [a] + ([b] + []) == [a, b];
  }

  lemma {:induction false} OtherClaimed(x: Option<Id>, y: Option<Id>)
    requires x != y
    ensures y.Some? ==> y.value !in Added({}, x)
  {
  }

  lemma {:induction false} NothingLeft(c: Codec, claimed: set<Id>, taken: set<Id>)
    ensures Assign(c, [], claimed, taken) == []
  {
  }

  /** Lookalikes one of which a merge renumbered fold onto the best of their ids. */
  lemma {:induction false} LookalikesFold(c: Codec, a: Row, b: Row)
    requires Lookalike(a, b) && (Renumbered(a) || Renumbered(b)) && a.Obj?
    ensures var best := FirstUnclaimed(SortBy(IdLe, GroupIds([Newcomer(a), Newcomer(b)])), {});
      Merged(c, [], [a], [b]) == [a.(id := best)]
  {
    LookalikeFacts(a, b);
    LookalikesOrdered(c, a, b);
    var x, y := Newcomer(a), Newcomer(b);
    ContentsOfLookalikes(x, y, Payload(a));
    OneIsDerived(a, b);
    hide *;
    MergedIs(c, [], [a], [b]);
    SettleIs(c, [x, y]);
    LogicalOne([x, y], Payload(a));
    FoldedEntry([x, y], x, y, a);
    BestTaken(c, Entry(a, GroupIds([x, y]), None, 2), InitialTaken([x, y]));
  }

  lemma {:induction false} OneIsDerived(a: Row, b: Row)
    requires Renumbered(a) || Renumbered(b)
    ensures AnyDerived(GroupIds([Newcomer(a), Newcomer(b)])) && GroupIds([Newcomer(a), Newcomer(b)]) != []
    ensures Newcomer(a).row == a && Newcomer(a).baseId.None? && Newcomer(b).row == b
  {
    var x, y := Newcomer(a), Newcomer(b);
    var id := if Renumbered(a) then a.id.value else b.id.value;
    NewcomerListed(a);
    NewcomerListed(b);
    assert [x, y][0] in [x, y] && [x, y][1] in [x, y];
    GroupIdsFrom([x, y], id);
    assert id in GroupIds([x, y]);
  }

  lemma {:induction false} FoldedEntry(s: seq<Cluster>, x: Cluster, y: Cluster, row: Row)
    requires s == [x, y] && AnyDerived(GroupIds(s)) && GroupIds(s) != [] && x.row == row && x.baseId.None?
    ensures EntriesOf(s, s) == [Entry(row, GroupIds(s), None, 2)]
  {
    hide AnyDerived, GroupIds;
  }

  lemma {:induction false} BestTaken(c: Codec, e: Entry, taken: set<Id>)
    requires e.row.Obj? && e.baseId.None? && e.ids != []
    ensures Assign(c, [e], {}, taken) == [e.row.(id := FirstUnclaimed(SortBy(IdLe, e.ids), {}))]
  {
    BestFree(e.ids, {});
    assert e.ids[0] in e.ids;
    var id := FirstUnclaimed(SortBy(IdLe, e.ids), {});
    assert id.Some?;
    assert Choice(c, e, {}, taken) == id;
    AssignFirst(c, e, [], {}, taken, id);
    assert [e] + [] == [e];
  }

  /** The docstring's "byte for byte", for one append or edit a side and rows of any kind: it holds exactly when the
      two rows are not lookalikes under ids no merge invented. */
  lemma {:induction false} TwoAppendsCommute(c: Codec, a: Row, b: Row)
    requires CanonInjective(c)
    ensures Merged(c, [], [a], [b]) == Merged(c, [], [b], [a])
       <==> !(Lookalike(a, b) && !Renumbered(a) && !Renumbered(b))
  {
    if Lookalike(a, b) {
      LookalikeFacts(a, b);
      if Renumbered(a) || Renumbered(b) {
        FoldsCommute(c, a, b);
      } else {
        LookalikesStayApart(c, a, b);
        LookalikesStayApart(c, b, a);
        hide *;
        assert [a, b][0] != [b, a][0];
      }
    } else if a == b {
    } else if SameRow(a, b) {
      VersionsCommute(c, a, b);
    } else {
      ApartCommute(c, a, b);
    }
  }

  lemma {:induction false} FoldsCommute(c: Codec, a: Row, b: Row)
    requires Lookalike(a, b) && (Renumbered(a) || Renumbered(b))
    ensures Merged(c, [], [a], [b]) == Merged(c, [], [b], [a])
  {
    LookalikeFacts(a, b);
    LookalikesFold(c, a, b);
    LookalikesFold(c, b, a);
    var s, t := [Newcomer(a), Newcomer(b)], [Newcomer(b), Newcomer(a)];
    forall id ensures id in GroupIds(s) <==> id in GroupIds(t) {
      GroupIdsFrom(s, id);
      GroupIdsFrom(t, id);
    }
    SameCandidatesSameChoice(GroupIds(s), GroupIds(t), {});
  }

  lemma {:induction false} ApartCommute(c: Codec, a: Row, b: Row)
    requires CanonInjective(c) && !SameRow(a, b) && Payload(a) != Payload(b)
    ensures Merged(c, [], [a], [b]) == Merged(c, [], [b], [a])
  {
    SameRowSwaps(a, b);
    BuildTwo(c, a, b);
    BuildTwo(c, b, a);
    OrderLeTotal(c, a, b);
    if OrderLe(c, a, b) && OrderLe(c, b, a) {
      OrderLeAntisymmetric(c, a, b);
    }
    NewRow(a);
    NewRow(b);
    hide OrderLe, Build, Ordered, Settle, Newcomer, SameRow, Payload;
    OrderEither(c, Newcomer(a), Newcomer(b));
    OrderEither(c, Newcomer(b), Newcomer(a));
    MergedIs(c, [], [a], [b]);
    MergedIs(c, [], [b], [a]);
  }

  lemma {:induction false} SameRowSwaps(a: Row, b: Row)
    ensures SameRow(a, b) <==> SameRow(b, a)
  {
  }

  lemma {:induction false} NewRow(row: Row)
    ensures IsNew(Newcomer(row)) && Newcomer(row).row == row
  {
  }

  /** Two versions of one row make one cluster, the combined row under their ids. */
  lemma {:induction false} OneVersion(c: Codec, a: Row, b: Row)
    requires SameRow(a, b) && a != b
    ensures a.Obj? && b.Obj? && RowId(a).Some? && RowId(b).Some? && IdText(a.id.value) == IdText(b.id.value)
    ensures Build(c, Arrivals([], [a], [b]))
         == [Cluster(MergePair(c, a, b), None, None,
                     if b.id == a.id then [a.id.value] else [a.id.value, b.id.value])]
  {
    VersionFacts(a, b);
    NotedVersion(c, a, b);
    hide *;
    OneThenVersion(c, a, b);
  }

  lemma {:induction false} VersionFacts(a: Row, b: Row)
    requires SameRow(a, b) && a != b
    ensures a.Obj? && b.Obj? && RowId(a).Some? && RowId(b).Some? && IdText(a.id.value) == IdText(b.id.value)
    ensures a.id.Some? && b.id.Some?
  {
  }

  lemma {:induction false} NotedVersion(c: Codec, a: Row, b: Row)
    requires a.Obj? && b.Obj? && a.id.Some? && b.id.Some? && a != b
    ensures NoteRow(c, Newcomer(a), Arrival(b, None))
         == Cluster(MergePair(c, a, b), None, None, if b.id == a.id then [a.id.value] else [a.id.value, b.id.value])
  {
    hide MergePair;
    assert [a.id.value] + [b.id.value] == [a.id.value, b.id.value];
  }

  lemma {:induction false} OneThenVersion(c: Codec, a: Row, b: Row)
    requires SameRow(a, b)
    ensures Build(c, Arrivals([], [a], [b])) == [NoteRow(c, Newcomer(a), Arrival(b, None))]
  {
    hide *;
    var x, y := Arrival(a, None), Arrival(b, None);
    OneEach(c, a, b);
    BuildFresh(c, [], [], x);
    BuildSnoc(c, [] + [x], y);
    LandsOnOne(c, Newcomer(a), y);
  }

  lemma {:induction false} OneEach(c: Codec, a: Row, b: Row)
    ensures Arrivals([], [a], [b]) == [] + [Arrival(a, None)] + [Arrival(b, None)] && Build(c, []) == []
    ensures [] + [Opened(Arrival(a, None))] == [Newcomer(a)] && Newcomer(a).row == a
  {
  }

  lemma {:induction false} LandsOnOne(c: Codec, cu: Cluster, a: Arrival)
    requires SameRow(cu.row, a.row)
    ensures Absorb(c, [cu], a) == [NoteRow(c, cu, a)]
  {
    hide NoteRow, SameRow;
    assert FindHit([cu], a.row) == Some(0);
    assert [cu][0 := NoteRow(c, cu, a)] == [NoteRow(c, cu, a)];
  }

  lemma {:induction false} VersionsCommute(c: Codec, a: Row, b: Row)
    requires CanonInjective(c) && SameRow(a, b) && a != b
    ensures Merged(c, [], [a], [b]) == Merged(c, [], [b], [a])
  {
    SameRowSwaps(a, b);
    OneVersion(c, a, b);
    OneVersion(c, b, a);
    MergePairCommutes(c, a, b);
    MergePairId(c, a, b);
    var u, x, y := MergePair(c, a, b), a.id.value, b.id.value;
    var s, t := if y == x then [x] else [x, y], if x == y then [y] else [y, x];
    VersionIds(u, x, y);
    OneClusterSettles(c, Cluster(u, None, None, s), Cluster(u, None, None, t));
  }

  lemma {:induction false} MergePairId(c: Codec, a: Row, b: Row)
    requires a.Obj? && b.Obj? && a.id.Some? && b.id.Some?
    ensures MergePair(c, a, b).id == a.id || MergePair(c, a, b).id == b.id
  {
  }

  /** The row's own id leads its ids, so it does not matter which version came first. */
  lemma {:induction false} VersionIds(u: Row, x: Id, y: Id)
    requires RowId(u) == Some(x) || RowId(u) == Some(y)
    ensures var s, t := if y == x then [x] else [x, y], if x == y then [y] else [y, x];
      ClusterIds(Cluster(u, None, None, s)) == ClusterIds(Cluster(u, None, None, t))
  {
    if x != y {
      OwnIdLeads(u, x, y);
      OwnIdLeads(u, y, x);
    }
  }

  lemma {:induction false} OwnIdLeads(u: Row, x: Id, y: Id)
    requires x != y && (RowId(u) == Some(x) || RowId(u) == Some(y))
    ensures ClusterIds(Cluster(u, None, None, [x, y])) == if RowId(u) == Some(x) then [x, y] else [y, x]
  {
    var z := u.id.value;
    assert Listed(None) + Listed(RowId(u)) + [x, y] == [z, x] + [y];
    LeadTwo(z, x, y);
  }

  lemma {:induction false} LeadTwo(z: Id, x: Id, y: Id)
    requires x != y && (z == x || z == y)
    ensures Distinct([z, x] + [y]) == if z == x then [x, y] else [y, x]
  {
    DistinctFew(z, x);
    DistinctSnoc([z, x], y);
  }

  lemma {:induction false} OneClusterSettles(c: Codec, x: Cluster, y: Cluster)
    requires x.row == y.row && IsNew(x) && IsNew(y) && ClusterIds(x) == ClusterIds(y) && x.baseId.None?
    requires y.baseId.None?
    ensures Settle(c, Ordered(c, [x])) == Settle(c, Ordered(c, [y]))
  {
    OneSettled(c, x);
    OneSettled(c, y);
    OneTaken(x);
    OneTaken(y);
  }

  lemma {:induction false} OneSettled(c: Codec, x: Cluster)
    requires IsNew(x)
    ensures Ordered(c, [x]) == [x] && Settle(c, [x]) == Assign(c, [Single(x)], {}, InitialTaken([x]))
  {
    NewInOrder(c, [x]);
    OneShown(x);
    SingleEntry([x], x);
    LogicalOne([x], Payload(x.row));
  }

  lemma {:induction false} OneShown(x: Cluster)
    ensures Contents([x]) == [Payload(x.row)] && Group([x], Payload(x.row)) == [x]
  {
    assert MapSeq(PayloadOf, [x]) == [Payload(x.row)];
    DistinctFew(Payload(x.row), Payload(x.row));
    AloneInGroup([x], 0);
  }

  lemma {:induction false} OneTaken(x: Cluster)
    ensures InitialTaken([x]) == IdsOf([x.row])
  {
    OneShown(x);
    assert RowsOf([x]) == [x.row];
  }
}
