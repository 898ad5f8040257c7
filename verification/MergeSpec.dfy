/** What a three-way merge computes, as functions of the three row lists. */
module MergeSpec {
  import opened Prelude
  import opened BoardRows
  import opened IdSpace

  /** One row in all its versions: the combined row, its place and id in the merge base, and the
      ids it was seen under. */
  datatype Cluster = Cluster(row: Row, basePos: Option<nat>, baseId: Option<Id>, ids: seq<Id>)

  /** A row as it reaches the clustering loop; only base rows bring a position. */
  datatype Arrival = Arrival(row: Row, pos: Option<nat>)

  function BaseArrivals(rows: seq<Row>): seq<Arrival> {
    seq(|rows|, i requires 0 <= i < |rows| => Arrival(rows[i], Some(i)))
  }

  function SideArrivals(rows: seq<Row>): seq<Arrival> {
    seq(|rows|, i requires 0 <= i < |rows| => Arrival(rows[i], None))
  }

  function Arrivals(base: seq<Row>, ours: seq<Row>, theirs: seq<Row>): seq<Arrival> {
    BaseArrivals(base) + SideArrivals(ours) + SideArrivals(theirs)
  }

  // ---------------------------------------------------------------- clustering

  function FindFrom(cl: seq<Cluster>, row: Row, i: nat): (hit: Option<nat>)
    requires i <= |cl|
    ensures hit.Some? ==> i <= hit.value < |cl| && SameRow(cl[hit.value].row, row)
    ensures forall k | i <= k < (if hit.Some? then hit.value else |cl|) :: !SameRow(cl[k].row, row)
    decreases |cl| - i
  {
    if i == |cl| then None
    else if SameRow(cl[i].row, row) then Some(i)
    else FindFrom(cl, row, i + 1)
  }

  function FindHit(cl: seq<Cluster>, row: Row): (hit: Option<nat>)
    ensures hit.Some? ==> hit.value < |cl| && SameRow(cl[hit.value].row, row)
    ensures forall k | 0 <= k < (if hit.Some? then hit.value else |cl|) :: !SameRow(cl[k].row, row)
  {
    FindFrom(cl, row, 0)
  }

  function Placed(cu: Cluster, a: Arrival): Cluster {
    if a.pos.Some? && cu.basePos.None? then cu.(basePos := a.pos, baseId := RowId(a.row)) else cu
  }

  function Versioned(c: Codec, cu: Cluster, row: Row): Cluster {
    if cu.row.Obj? && row.Obj? && cu.row != row then cu.(row := MergePair(c, cu.row, row)) else cu
  }

  function Numbered(cu: Cluster, row: Row): Cluster {
    if cu.row.Obj? && row.Obj? && row.id.Some? && row.id.value !in cu.ids
        then cu.(ids := cu.ids + [row.id.value]) else cu
  }

  /** A cluster after one more of its rows arrived. */
  function NoteRow(c: Codec, cu: Cluster, a: Arrival): Cluster {
    Numbered(Versioned(c, Placed(cu, a), a.row), a.row)
  }

  function NewCluster(row: Row): Cluster {
    Cluster(row, None, None, [])
  }

  function Absorb(c: Codec, cl: seq<Cluster>, a: Arrival): (r: seq<Cluster>)
    ensures |cl| <= |r| <= |cl| + 1
  {
    var hit := FindHit(cl, a.row);
    if hit.Some? then cl[hit.value := NoteRow(c, cl[hit.value], a)]
    else cl + [NoteRow(c, NewCluster(a.row), a)]
  }

  function Build(c: Codec, arrivals: seq<Arrival>): (cl: seq<Cluster>)
    ensures |cl| <= |arrivals|
  {
    if arrivals == [] then [] else
      Absorb(c, Build(c, arrivals[..|arrivals| - 1]), arrivals[|arrivals| - 1])
  }

  // ---------------------------------------------------------------- order and ids

  predicate InBase(cu: Cluster) {
    cu.basePos.Some?
  }

  predicate IsNew(cu: Cluster) {
    cu.basePos.None?
  }

  predicate BasePosLe(a: Cluster, b: Cluster) {
    (if a.basePos.Some? then a.basePos.value else 0) <= (if b.basePos.Some? then b.basePos.value else 0)
  }

  function ContentLe(c: Codec): (Cluster, Cluster) -> bool {
    (a: Cluster, b: Cluster) => OrderLe(c, a.row, b.row)
  }

  /** Base rows in base order, then new rows by timestamp and content. */
  function Ordered(c: Codec, cl: seq<Cluster>): seq<Cluster> {
    SortBy(BasePosLe, Filter(InBase, cl)) + SortBy(ContentLe(c), Filter(IsNew, cl))
  }

  lemma {:induction false} BaseOrNew(cl: seq<Cluster>)
    ensures |Filter(InBase, cl)| + |Filter(IsNew, cl)| == |cl|
  {
    if cl != [] {
      BaseOrNew(cl[..|cl| - 1]);
    }
  }

  function Listed(id: Option<Id>): seq<Id> {
    if id.Some? then [id.value] else []
  }

  /** Every id a clustered row has carried. */
  function ClusterIds(cu: Cluster): seq<Id> {
    Distinct(Listed(cu.baseId) + Listed(RowId(cu.row)) + cu.ids)
  }

  /** Two rows of different content claim this id. */
  predicate Contested(ordered: seq<Cluster>, id: Id) {
    exists x, y :: x in ordered && y in ordered
      && id in ClusterIds(x) && id in ClusterIds(y) && Payload(x.row) != Payload(y.row)
  }

  // ---------------------------------------------------------------- grouping by content

  function PayloadOf(cu: Cluster): Row {
    Payload(cu.row)
  }

  function PaysAs(p: Row): Cluster -> bool {
    (cu: Cluster) => Payload(cu.row) == p
  }

  /** The contents present, in order of first appearance. */
  function Contents(ordered: seq<Cluster>): (keys: seq<Row>)
    ensures NoDuplicates(keys)
    ensures forall p :: p in keys <==> exists cu :: cu in ordered && Payload(cu.row) == p
  {
    var pays := MapSeq(PayloadOf, ordered);
    assert forall p | p in pays :: exists cu :: cu in ordered && Payload(cu.row) == p;
    assert forall cu | cu in ordered :: Payload(cu.row) in pays by {
      forall cu | cu in ordered ensures Payload(cu.row) in pays {
        var i :| 0 <= i < |ordered| && ordered[i] == cu;
        assert pays[i] == Payload(cu.row);
      }
    }
    Distinct(pays)
  }

  function Group(ordered: seq<Cluster>, p: Row): seq<Cluster> {
    Filter(PaysAs(p), ordered)
  }

  function AllIds(g: seq<Cluster>): (ids: seq<Id>)
    ensures forall id :: id in ids <==> exists cu :: cu in g && id in ClusterIds(cu)
  {
    if g == [] then [] else
      var front, last := g[..|g| - 1], g[|g| - 1];
      assert g == front + [last];
      AllIds(front) + ClusterIds(last)
  }

  function GroupIds(g: seq<Cluster>): seq<Id> {
    Distinct(AllIds(g))
  }

  predicate AnyDerived(ids: seq<Id>) {
    exists id :: id in ids && IsDerived(id)
  }

  predicate AllContested(ordered: seq<Cluster>, ids: seq<Id>) {
    forall id | id in ids :: Contested(ordered, id)
  }

  /** The same row numbered differently by two trees: some id was derived, or every id is contested. */
  predicate Collapses(ordered: seq<Cluster>, g: seq<Cluster>) {
    var ids := GroupIds(g);
    |g| > 1 && ids != [] && (AnyDerived(ids) || AllContested(ordered, ids))
  }

  /** One row of the result before its id is settled. */
  datatype Entry = Entry(row: Row, ids: seq<Id>, baseId: Option<Id>, variants: nat)

  function Single(cu: Cluster): Entry {
    Entry(cu.row, ClusterIds(cu), cu.baseId, 1)
  }

  function EntriesOf(ordered: seq<Cluster>, g: seq<Cluster>): (r: seq<Entry>)
    ensures |r| <= |g|
  {
    if Collapses(ordered, g) then [Entry(g[0].row, GroupIds(g), g[0].baseId, |g|)] else MapSeq(Single, g)
  }

  function Logical(ordered: seq<Cluster>, keys: seq<Row>): seq<Entry> {
    if keys == [] then [] else
      Logical(ordered, keys[..|keys| - 1]) + EntriesOf(ordered, Group(ordered, keys[|keys| - 1]))
  }

  lemma {:induction false} LogicalSnoc(ordered: seq<Cluster>, keys: seq<Row>, p: Row)
    ensures Logical(ordered, keys + [p]) == Logical(ordered, keys) + EntriesOf(ordered, Group(ordered, p))
  {
    assert (keys + [p])[..|keys + [p]| - 1] == keys;
  }

  // ---------------------------------------------------------------- assigning ids

  function RowsOf(g: seq<Cluster>): seq<Row> {
    MapSeq((cu: Cluster) => cu.row, g)
  }

  /** The allocator starts from the last content group only: the grouping loop reuses the name
      of the cluster list. */
  ghost function InitialTaken(ordered: seq<Cluster>): set<Id> {
    var keys := Contents(ordered);
    if keys == [] then {} else IdsOf(RowsOf(Group(ordered, keys[|keys| - 1])))
  }

  function FirstUnclaimed(ids: seq<Id>, claimed: set<Id>): (id: Option<Id>)
    ensures id.Some? ==> id.value in ids && id.value !in claimed
    ensures id.None? ==> forall x | x in ids :: x in claimed
  {
    if ids == [] then None
    else if ids[0] !in claimed then Some(ids[0])
    else FirstUnclaimed(ids[1..], claimed)
  }

  /** The id an entry already has a right to: its base id, else its best id nobody claimed yet. */
  function OwnChoice(e: Entry, claimed: set<Id>): Option<Id> {
    if e.baseId.Some? && e.baseId.value !in claimed then e.baseId
    else FirstUnclaimed(SortBy(IdLe, e.ids), claimed)
  }

  function Like(e: Entry): Option<Id> {
    if RowId(e.row).Some? then RowId(e.row) else if e.ids != [] then Some(e.ids[0]) else None
  }

  ghost function Choice(c: Codec, e: Entry, claimed: set<Id>, taken: set<Id>): Option<Id> {
    var own := OwnChoice(e, claimed);
    if own.Some? then own
    else if Like(e).None? then None
    else Some(FreshId(c, Like(e), c.digest(Payload(e.row)), taken))
  }

  function WithId(row: Row, id: Option<Id>): Row {
    if row.Obj? && id.Some? then row.(id := id) else row
  }

  function Added(s: set<Id>, id: Option<Id>): set<Id> {
    if id.Some? then s + {id.value} else s
  }

  ghost function Assign(c: Codec, es: seq<Entry>, claimed: set<Id>, taken: set<Id>): (rows: seq<Row>)
    ensures |rows| == |es|
  {
    if es == [] then [] else
      var id := Choice(c, es[0], claimed, taken);
      [WithId(es[0].row, id)] + Assign(c, es[1..], Added(claimed, id), Added(taken, id))
  }

  // ---------------------------------------------------------------- the merge

  ghost function Settle(c: Codec, ordered: seq<Cluster>): seq<Row> {
    Assign(c, Logical(ordered, Contents(ordered)), {}, InitialTaken(ordered))
  }

  ghost function Merged(c: Codec, base: seq<Row>, ours: seq<Row>, theirs: seq<Row>): seq<Row> {
    Settle(c, Ordered(c, Build(c, Arrivals(base, ours, theirs))))
  }
}
