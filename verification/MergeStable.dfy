/** Stable ids: an id that any board carried leaves the board only when its row stands under another id it had too. */
module MergeStable {
  import opened Prelude
  import opened BoardRows
  import opened IdSpace
  import opened MergeSpec
  import opened MergeLossless
  import opened MergeIds
  import opened MergeTies
  import opened MergePrefixed
  import opened MergeBase

  // ---------------------------------------------------------------- every id is noted

  ghost predicate Tidy(cu: Cluster) {
    cu.row.Bare? ==> cu.ids == [] && cu.baseId.None?
  }

  ghost predicate Noted(cl: seq<Cluster>, id: Id) {
    exists cu :: cu in cl && id in cu.ids
  }

  lemma {:induction false} NoteRowNotes(c: Codec, cu: Cluster, a: Arrival)
    requires Tidy(cu) && SameRow(cu.row, a.row)
    ensures var now := NoteRow(c, cu, a);
      && Tidy(now) && (forall id | id in cu.ids :: id in now.ids)
      && (RowId(a.row).Some? ==> a.row.id.value in now.ids)
  {
  }

  lemma {:induction false} BuildNotes(c: Codec, arrivals: seq<Arrival>, id: Id)
    ensures forall cu | cu in Build(c, arrivals) :: Tidy(cu)
    ensures (exists a :: a in arrivals && RowId(a.row) == Some(id)) ==> Noted(Build(c, arrivals), id)
  {
    if arrivals != [] {
      var front, last := arrivals[..|arrivals| - 1], arrivals[|arrivals| - 1];
      LastSplit(arrivals);
      BuildNotes(c, front, id);
      AbsorbNotes(c, Build(c, front), last, id);
    }
  }

  lemma {:induction false} AbsorbNotes(c: Codec, cl: seq<Cluster>, a: Arrival, id: Id)
    requires forall cu | cu in cl :: Tidy(cu)
    ensures forall cu | cu in Absorb(c, cl, a) :: Tidy(cu)
    ensures Noted(cl, id) || RowId(a.row) == Some(id) ==> Noted(Absorb(c, cl, a), id)
  {
    var hit, now := FindHit(cl, a.row), Absorb(c, cl, a);
    var k := if hit.Some? then hit.value else |cl|;
    NoteRowNotes(c, if hit.Some? then cl[k] else NewCluster(a.row), a);
    assert now[k] in now;
    if cu :| cu in cl && id in cu.ids {
      var i :| 0 <= i < |cl| && cl[i] == cu;
      assert now[i] in now && id in now[i].ids;
    }
  }

  // ---------------------------------------------------------------- into the entries

  lemma {:induction false} BareGroup(g: seq<Cluster>, p: Row)
    requires p.Bare? && forall cu | cu in g :: Payload(cu.row) == p && Tidy(cu)
    ensures AllIds(g) == []
  {
    if g != [] {
      LastSplit(g);
      BareGroup(g[..|g| - 1], p);
      assert ClusterIds(g[|g| - 1]) == [];
    }
  }

  lemma {:induction false} GroupEntries(ordered: seq<Cluster>, p: Row, cu: Cluster, id: Id)
    requires forall x | x in ordered :: Tidy(x)
    ensures forall e | e in EntriesOf(ordered, Group(ordered, p)) :: e.row.Bare? ==> e.ids == [] && e.baseId.None?
    ensures cu in Group(ordered, p) && id in cu.ids
        ==> exists e :: e in EntriesOf(ordered, Group(ordered, p)) && id in e.ids
  {
    var g := Group(ordered, p);
    var es := EntriesOf(ordered, g);
    if p.Bare? {
      BareGroup(g, p);
    }
    forall i | 0 <= i < |es| ensures es[i].row.Bare? ==> es[i].ids == [] && es[i].baseId.None? {
      assert g[i] in g;
      if es[i].row.Bare? {
        assert ClusterIds(g[i]) == [];
      }
    }
    if cu in g && id in cu.ids {
      var k :| 0 <= k < |g| && g[k] == cu;
      assert id in ClusterIds(cu);
      assert id in (if Collapses(ordered, g) then es[0] else es[k]).ids;
    }
  }

  lemma {:induction false} EntriesHold(ordered: seq<Cluster>, keys: seq<Row>, cu: Cluster, id: Id)
    requires forall x | x in ordered :: Tidy(x)
    ensures forall e | e in Logical(ordered, keys) :: e.row.Bare? ==> e.ids == [] && e.baseId.None?
    ensures cu in ordered && Payload(cu.row) in keys && id in cu.ids
        ==> exists e :: e in Logical(ordered, keys) && id in e.ids
  {
    if keys != [] {
      var front, last := keys[..|keys| - 1], keys[|keys| - 1];
      LastSplit(keys);
      EntriesHold(ordered, front, cu, id);
      GroupEntries(ordered, last, cu, id);
      if e :| e in Logical(ordered, front) && id in e.ids {
        assert e in Logical(ordered, keys);
      }
      if e :| e in EntriesOf(ordered, Group(ordered, last)) && id in e.ids {
        assert e in Logical(ordered, keys);
      }
    }
  }

  lemma {:induction false} EntryOfId(c: Codec, base: seq<Row>, ours: seq<Row>, theirs: seq<Row>, id: Id)
    requires id in IdsOf(base + ours + theirs)
    ensures var ordered := Ordered(c, Build(c, Arrivals(base, ours, theirs)));
      var es := Logical(ordered, Contents(ordered));
      && (forall e | e in es :: e.row.Bare? ==> e.ids == [] && e.baseId.None?)
      && exists e :: e in es && id in e.ids
  {
    var arrivals := Arrivals(base, ours, theirs);
    var cl := Build(c, arrivals);
    var i :| 0 <= i < |base + ours + theirs| && RowId((base + ours + theirs)[i]) == Some(id);
    assert arrivals[i].row == (base + ours + theirs)[i];
    assert arrivals[i] in arrivals;
    BuildNotes(c, arrivals, id);
    var cu :| cu in cl && id in cu.ids;
    OrderedSameClusters(c, cl);
    var ordered := Ordered(c, cl);
    EntriesHold(ordered, Contents(ordered), cu, id);
  }

  /** Row `i` of the result was seen under `id` and stands under another id it was seen under. */
  ghost predicate StaysSeen(out: seq<Row>, es: seq<Entry>, i: nat, id: Id) {
    && |out| == |es| && i < |out| && id in es[i].ids && Payload(out[i]) == Payload(es[i].row)
    && KeepsAnId(es[i], out[i]) && RowId(out[i]) != Some(id)
  }

  /** The id went with a row that stands elsewhere; with one spelling an id, that row was folded from several. */
  ghost predicate GivenUp(out: seq<Row>, es: seq<Entry>, id: Id, oneSpelling: bool) {
    exists i: nat :: StaysSeen(out, es, i, id) && (oneSpelling ==> es[i].variants > 1)
  }

  /** Where no two ids print alike, an entry that is one cluster was seen under one id. */
  lemma {:induction false} OneClusterOneId(c: Codec, base: seq<Row>, ours: seq<Row>, theirs: seq<Row>, cu: Cluster,
          id: Id)
    requires OneSpelling(IdsOf(base + ours + theirs))
    requires cu in Ordered(c, Build(c, Arrivals(base, ours, theirs))) && id in ClusterIds(cu)
    ensures ClusterIds(cu) == [id]
  {
    OrderedSameClusters(c, Build(c, Arrivals(base, ours, theirs)));
    NewOneId(c, base, ours, theirs, cu, id);
  }

  lemma {:induction false} FoldedOnly(c: Codec, base: seq<Row>, ours: seq<Row>, theirs: seq<Row>, out: Row, r: nat,
          id: Id)
    requires OneSpelling(IdsOf(base + ours + theirs))
    requires var ordered := Ordered(c, Build(c, Arrivals(base, ours, theirs)));
      var es := Logical(ordered, Contents(ordered));
      r < |es| && id in es[r].ids && KeepsAnId(es[r], out) && RowId(out) != Some(id)
    ensures var ordered := Ordered(c, Build(c, Arrivals(base, ours, theirs)));
      Logical(ordered, Contents(ordered))[r].variants > 1
  {
    var ordered := Ordered(c, Build(c, Arrivals(base, ours, theirs)));
    var i, k := EntryPlace(ordered, Contents(ordered), r);
    var g := Group(ordered, Contents(ordered)[i]);
    if !Collapses(ordered, g) {
      assert g[k] in g;
      OneClusterOneId(c, base, ours, theirs, g[k], id);
      GroupIdsHold(g);
    }
  }

  lemma {:induction false} StaysOrGone(c: Codec, es: seq<Entry>, taken: set<Id>, i: nat, id: Id)
    requires i < |es| && id in es[i].ids && forall e | e in es :: e.row.Bare? ==> e.ids == [] && e.baseId.None?
    ensures var out := Assign(c, es, {}, taken);
      StaysSeen(out, es, i, id) || exists row :: row in out && RowId(row) == Some(id)
  {
    var out := Assign(c, es, {}, taken);
    assert es[i] in es;
    AssignKeeps(c, es, {}, taken, i, id);
    AssignContents(c, es, {}, taken, i);
    if j :| 0 <= j <= i && RowId(out[j]) == Some(id) {
      assert out[j] in out;
    }
  }

  /** STABLE IDS, on every input: an id that any row of the three boards carried is on the merged board, or the row
      that carried it stands there under another id it had been seen under; where no two ids print alike that takes
      a fold. */
  lemma {:induction false} StableIds(c: Codec, base: seq<Row>, ours: seq<Row>, theirs: seq<Row>, id: Id)
    requires id in IdsOf(base + ours + theirs)
    ensures var ordered := Ordered(c, Build(c, Arrivals(base, ours, theirs)));
      var es, out := Logical(ordered, Contents(ordered)), Merged(c, base, ours, theirs);
      || (exists row :: row in out && RowId(row) == Some(id))
      || GivenUp(out, es, id, OneSpelling(IdsOf(base + ours + theirs)))
  {
    EntryOfId(c, base, ours, theirs, id);
    var ordered := Ordered(c, Build(c, Arrivals(base, ours, theirs)));
    var es := Logical(ordered, Contents(ordered));
    var e :| e in es && id in e.ids;
    var i :| 0 <= i < |es| && es[i] == e;
    StaysOrGone(c, es, InitialTaken(ordered), i, id);
    var out := Merged(c, base, ours, theirs);
    if StaysSeen(out, es, i, id) {
      if OneSpelling(IdsOf(base + ours + theirs)) {
        FoldedOnly(c, base, ours, theirs, out[i], i, id);
      }
    }
  }
}
