/** Nothing is dropped and nothing is invented, whatever the three boards hold. */
module MergeLossless {
  import opened Prelude
  import opened BoardRows
  import opened MergeSpec

  // ---------------------------------------------------------------- through the clustering

  lemma {:induction false} NoteRowCarries(c: Codec, cu: Cluster, a: Arrival)
    requires SameRow(cu.row, a.row)
    ensures Carries(NoteRow(c, cu, a).row, cu.row) && Carries(NoteRow(c, cu, a).row, a.row)
  {
    if cu.row.Obj? && a.row.Obj? && cu.row != a.row {
      MergePairCarries(c, cu.row, a.row);
    }
  }

  ghost predicate HeldIn(cl: seq<Cluster>, row: Row) {
    exists cu :: cu in cl && Carries(cu.row, row)
  }

  lemma {:induction false} AbsorbKeeps(c: Codec, cl: seq<Cluster>, a: Arrival)
    ensures HeldIn(Absorb(c, cl, a), a.row)
    ensures forall row :: HeldIn(cl, row) ==> HeldIn(Absorb(c, cl, a), row)
  {
    var r := Absorb(c, cl, a);
    var hit := FindHit(cl, a.row);
    var k := if hit.Some? then hit.value else |cl|;
    if hit.Some? {
      NoteRowCarries(c, cl[k], a);
    } else {
      NoteRowCarries(c, NewCluster(a.row), a);
    }
    assert r[k] in r && Carries(r[k].row, a.row);
    forall row | HeldIn(cl, row) ensures HeldIn(r, row) {
      var i :| 0 <= i < |cl| && Carries(cl[i].row, row);
      assert Carries(r[i].row, cl[i].row);
      CarriesTransitive(r[i].row, cl[i].row, row);
      assert r[i] in r;
    }
  }

  lemma {:induction false} BuildKeeps(c: Codec, arrivals: seq<Arrival>, a: Arrival)
    requires a in arrivals
    ensures HeldIn(Build(c, arrivals), a.row)
  {
    var front, last := arrivals[..|arrivals| - 1], arrivals[|arrivals| - 1];
    AbsorbKeeps(c, Build(c, front), last);
    if a != last {
      assert arrivals == front + [last];
      BuildKeeps(c, front, a);
    }
  }

  /** Every field of `row` was written by somebody who meant the same row. */
  ghost predicate Sourced(row: Row, inputs: seq<Row>) {
    if row.Bare? then row in inputs
    else forall k | k in row.fields ::
      exists r :: r in inputs && r.Obj? && k in r.fields && r.fields[k] == row.fields[k]
  }

  lemma {:induction false} SourcedMore(row: Row, inputs: seq<Row>, extra: Row)
    requires Sourced(row, inputs)
    ensures Sourced(row, inputs + [extra])
  {
    if row.Obj? {
      forall k | k in row.fields
        ensures exists r :: r in inputs + [extra] && r.Obj? && k in r.fields && r.fields[k] == row.fields[k]
      {
        var r :| r in inputs && r.Obj? && k in r.fields && r.fields[k] == row.fields[k];
        assert r in inputs + [extra];
      }
    }
  }

  lemma {:induction false} MergePairSourced(c: Codec, a: Row, b: Row, inputs: seq<Row>)
    requires a.Obj? && b.Obj? && Sourced(a, inputs) && Sourced(b, inputs)
    ensures Sourced(MergePair(c, a, b), inputs)
  {
  }

  function RowsIn(arrivals: seq<Arrival>): seq<Row> {
    MapSeq((a: Arrival) => a.row, arrivals)
  }

  lemma {:induction false} BuildSourced(c: Codec, arrivals: seq<Arrival>, cu: Cluster)
    requires cu in Build(c, arrivals)
    ensures Sourced(cu.row, RowsIn(arrivals))
  {
    var front, last := arrivals[..|arrivals| - 1], arrivals[|arrivals| - 1];
    var cl := Build(c, front);
    assert RowsIn(arrivals) == RowsIn(front) + [last.row];
    assert last.row in RowsIn(arrivals);
    forall x | x in cl ensures Sourced(x.row, RowsIn(arrivals)) {
      BuildSourced(c, front, x);
      SourcedMore(x.row, RowsIn(front), last.row);
    }
    assert Sourced(last.row, RowsIn(arrivals));
    var i :| 0 <= i < |Build(c, arrivals)| && Build(c, arrivals)[i] == cu;
    var hit := FindHit(cl, last.row);
    if hit.Some? && i == hit.value {
      var x := cl[i];
      assert x in cl;
      if x.row.Obj? && last.row.Obj? && x.row != last.row {
        MergePairSourced(c, x.row, last.row, RowsIn(arrivals));
      }
    } else if i < |cl| {
      assert cl[i] in cl;
    }
  }

  // ---------------------------------------------------------------- through order, grouping and ids

  lemma {:induction false} OrderedSameClusters(c: Codec, cl: seq<Cluster>)
    ensures forall cu :: cu in Ordered(c, cl) <==> cu in cl
    ensures |Ordered(c, cl)| == |Filter(InBase, cl)| + |Filter(IsNew, cl)|
  {
    SortPermutes(BasePosLe, Filter(InBase, cl));
    SortPermutes(ContentLe(c), Filter(IsNew, cl));
  }

  ghost predicate HasContent(es: seq<Entry>, p: Row) {
    exists e :: e in es && Payload(e.row) == p
  }

  lemma {:induction false} EntriesOfContent(ordered: seq<Cluster>, p: Row)
    requires p in Contents(ordered)
    ensures HasContent(EntriesOf(ordered, Group(ordered, p)), p)
    ensures forall e | e in EntriesOf(ordered, Group(ordered, p)) :: Payload(e.row) == p
  {
    var g := Group(ordered, p);
    var es := EntriesOf(ordered, g);
    var cu :| cu in ordered && Payload(cu.row) == p;
    assert cu in g;
    assert g[0] in g;
    assert es[0] in es && Payload(es[0].row) == p;
    forall e | e in es ensures Payload(e.row) == p {
      var i :| 0 <= i < |es| && es[i] == e;
      assert g[i] in g;
    }
  }

  lemma {:induction false} LogicalContents(ordered: seq<Cluster>, keys: seq<Row>)
    requires forall p | p in keys :: p in Contents(ordered)
    ensures forall p | p in keys :: HasContent(Logical(ordered, keys), p)
    ensures forall e | e in Logical(ordered, keys) :: Payload(e.row) in keys
  {
    if keys != [] {
      var front, last := keys[..|keys| - 1], keys[|keys| - 1];
      assert keys == front + [last];
      LogicalContents(ordered, front);
      EntriesOfContent(ordered, last);
      var es, more := Logical(ordered, front), EntriesOf(ordered, Group(ordered, last));
      assert Logical(ordered, keys) == es + more;
      forall p | p in keys ensures HasContent(es + more, p) {
        if p == last {
          var e :| e in more && Payload(e.row) == p;
          assert e in es + more;
        } else {
          var e :| e in es && Payload(e.row) == p;
          assert e in es + more;
        }
      }
    }
  }

  lemma {:induction false} AssignContents(c: Codec, es: seq<Entry>, claimed: set<Id>, taken: set<Id>, i: nat)
    requires i < |es|
    ensures Payload(Assign(c, es, claimed, taken)[i]) == Payload(es[i].row)
  {
    if i > 0 {
      var id := Choice(c, es[0], claimed, taken);
      AssignContents(c, es[1..], Added(claimed, id), Added(taken, id), i - 1);
    }
  }

  /** After clustering, exactly the clusters' contents reach the result. */
  lemma {:induction false} SettleContents(c: Codec, ordered: seq<Cluster>)
    ensures forall cu | cu in ordered :: exists row :: row in Settle(c, ordered) && Payload(row) == Payload(cu.row)
    ensures forall row | row in Settle(c, ordered) :: exists cu :: cu in ordered && Payload(row) == Payload(cu.row)
  {
    var keys := Contents(ordered);
    var es := Logical(ordered, keys);
    var rows := Settle(c, ordered);
    hide Assign, Logical, Contents, Choice, OwnChoice, InitialTaken;
    LogicalContents(ordered, keys);
    forall i | 0 <= i < |es| ensures Payload(rows[i]) == Payload(es[i].row) {
      AssignContents(c, es, {}, InitialTaken(ordered), i);
    }
    forall cu | cu in ordered ensures exists row :: row in rows && Payload(row) == Payload(cu.row) {
      assert Payload(cu.row) in keys;
      assert HasContent(es, Payload(cu.row));
      var i :| 0 <= i < |es| && Payload(es[i].row) == Payload(cu.row);
      assert rows[i] in rows;
    }
    forall row | row in rows ensures exists cu :: cu in ordered && Payload(row) == Payload(cu.row) {
      var i :| 0 <= i < |rows| && rows[i] == row;
      assert es[i] in es;
    }
  }

  // ---------------------------------------------------------------- the claims

  lemma {:induction false} ArrivalOf(base: seq<Row>, ours: seq<Row>, theirs: seq<Row>, row: Row)
    requires row in base + ours + theirs
    ensures exists a :: a in Arrivals(base, ours, theirs) && a.row == row
  {
    var all := base + ours + theirs;
    var i :| 0 <= i < |all| && all[i] == row;
    var a := Arrivals(base, ours, theirs)[i];
    assert a.row == row;
    assert a in Arrivals(base, ours, theirs);
  }

  lemma {:induction false} RowsInArrivals(base: seq<Row>, ours: seq<Row>, theirs: seq<Row>)
    ensures RowsIn(Arrivals(base, ours, theirs)) == base + ours + theirs
  {
  }

  lemma {:induction false} ClusterReachesResult(c: Codec, cl: seq<Cluster>, cu: Cluster)
    requires cu in cl
    ensures exists out :: out in Settle(c, Ordered(c, cl)) && Payload(out) == Payload(cu.row)
  {
    OrderedSameClusters(c, cl);
    SettleContents(c, Ordered(c, cl));
  }

  lemma {:induction false} SamePayloadCarries(out: Row, held: Row, row: Row)
    requires Payload(out) == Payload(held) && Carries(held, row)
    ensures Carries(out, row)
  {
  }

  /** LOSSLESS: every row of every side has a row in the result that holds all its fields and says
      the same about what the row is. No hypothesis on ids, stamps, hashes or versions. */
  lemma {:induction false} Lossless(c: Codec, base: seq<Row>, ours: seq<Row>, theirs: seq<Row>, row: Row)
    requires row in base + ours + theirs
    ensures exists out :: out in Merged(c, base, ours, theirs) && Carries(out, row)
  {
    var arrivals := Arrivals(base, ours, theirs);
    var cl := Build(c, arrivals);
    ArrivalOf(base, ours, theirs, row);
    var a :| a in arrivals && a.row == row;
    BuildKeeps(c, arrivals, a);
    var cu :| cu in cl && Carries(cu.row, row);
    ClusterReachesResult(c, cl, cu);
    var out :| out in Settle(c, Ordered(c, cl)) && Payload(out) == Payload(cu.row);
    SamePayloadCarries(out, cu.row, row);
  }

  /** Two rows that collided on an id but say different things about what they are both survive,
      as two different rows of the result. */
  lemma {:induction false} CollisionKeepsBoth(c: Codec, base: seq<Row>, ours: seq<Row>, theirs: seq<Row>, a: Row,
          b: Row)
    requires a in base + ours + theirs && b in base + ours + theirs
    requires a.Obj? && b.Obj? && !AgreeOnIdentity(a.fields, b.fields)
    ensures exists x, y :: (x in Merged(c, base, ours, theirs) && y in Merged(c, base, ours, theirs)
                            && Carries(x, a) && Carries(y, b) && x != y)
  {
    Lossless(c, base, ours, theirs, a);
    Lossless(c, base, ours, theirs, b);
    var x :| x in Merged(c, base, ours, theirs) && Carries(x, a);
    var y :| y in Merged(c, base, ours, theirs) && Carries(y, b);
    assert x != y;
  }

  /** The result invents no content: each field of each result row comes from an input row. */
  lemma {:induction false} NothingInvented(c: Codec, base: seq<Row>, ours: seq<Row>, theirs: seq<Row>, out: Row)
    requires out in Merged(c, base, ours, theirs)
    ensures Sourced(out, base + ours + theirs)
  {
    var arrivals := Arrivals(base, ours, theirs);
    var cl := Build(c, arrivals);
    OrderedSameClusters(c, cl);
    SettleContents(c, Ordered(c, cl));
    var cu :| cu in Ordered(c, cl) && Payload(out) == Payload(cu.row);
    BuildSourced(c, arrivals, cu);
    RowsInArrivals(base, ours, theirs);
    assert out.Obj? ==> out.fields == cu.row.fields;
  }
}
