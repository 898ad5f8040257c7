/** When versions of a row are coherent, clustering depends only on which rows arrived: one cluster
    per row, holding its latest version. */
module MergeVersions {
  import opened Prelude
  import opened BoardRows
  import opened MergeSpec
  import opened MergeLossless

  /** Two versions of one row: the same id, the same identity fields present, and the later one
      carries every field of the earlier (equal stamps: equal field names). */
  ghost predicate VersionsAgree(a: Row, b: Row) {
    && RowId(a) == RowId(b)
    && (a.Obj? && b.Obj? ==>
          && (forall k | k in IDENTITY_FIELDS :: k in a.fields <==> k in b.fields)
          && (StrLe(Stamp(a), Stamp(b)) ==> a.fields.Keys <= b.fields.Keys))
  }

  ghost predicate Coherent(rows: seq<Row>) {
    forall a, b | a in rows && b in rows :: SameRow(a, b) ==> VersionsAgree(a, b)
  }

  /** Rows that print one id are versions of one row. */
  ghost predicate OneRowPerId(rows: seq<Row>) {
    forall a, b | a in rows && b in rows && RowKey(a) == RowKey(b) :: SameRow(a, b)
  }

  lemma {:induction false} SameRowTransitive(rows: seq<Row>, a: Row, b: Row, d: Row)
    requires Coherent(rows) && a in rows && b in rows && d in rows
    requires SameRow(a, b) && SameRow(b, d)
    ensures SameRow(a, d)
  {
    assert VersionsAgree(a, b);
  }

  // ---------------------------------------------------------------- later versions

  function Later(c: Codec, a: Row, b: Row): Row {
    if Wins(c, a, b) then a else b
  }

  lemma {:induction false} WinsTotal(c: Codec, a: Row, b: Row)
    ensures Wins(c, a, b) || Wins(c, b, a)
    ensures Wins(c, a, a)
  {
    StrLeTotal(c.canon(a), c.canon(b));
    StrLeTotal(c.canon(a), c.canon(a));
    StrLeTotal(Stamp(a), Stamp(b));
    if Stamp(a) != Stamp(b) && StrLe(Stamp(a), Stamp(b)) && StrLe(Stamp(b), Stamp(a)) {
      StrLeAntisymmetric(Stamp(a), Stamp(b));
    }
  }

  lemma {:induction false} WinsAntisymmetric(c: Codec, a: Row, b: Row)
    requires CanonInjective(c) && Wins(c, a, b) && Wins(c, b, a)
    ensures a == b
  {
    StrLeTotal(Stamp(a), Stamp(b));
    StrLeAntisymmetric(c.canon(a), c.canon(b));
  }

  lemma {:induction false} WinsTransitive(c: Codec, a: Row, b: Row, d: Row)
    requires Wins(c, a, b) && Wins(c, b, d)
    ensures Wins(c, a, d)
  {
    var sa, sb, sd := Stamp(a), Stamp(b), Stamp(d);
    if sa == sb == sd {
      StrLeTransitive(c.canon(d), c.canon(b), c.canon(a));
    } else {
      StrLeTotal(sa, sb);
      StrLeTotal(sb, sd);
      if StrLe(sa, sd) {
        StrLeTransitive(sb, sa, sd);
        StrLeTransitive(sd, sb, sa);
        StrLeAntisymmetric(sa, sd);
        if sb != sd && sa != sb {
          StrLeAntisymmetric(sb, sd);
        }
      }
    }
  }

  /** Overlaying coherent versions is taking the later one. */
  lemma {:induction false} MergePairIsLater(c: Codec, a: Row, b: Row)
    requires a.Obj? && b.Obj? && VersionsAgree(a, b) && VersionsAgree(b, a)
    ensures MergePair(c, a, b) == Later(c, a, b)
  {
    StrLeTotal(Stamp(a), Stamp(b));
    if Wins(c, a, b) {
      assert b.fields.Keys <= a.fields.Keys;
      assert b.fields + a.fields == a.fields;
    } else {
      assert a.fields.Keys <= b.fields.Keys by {
        if Stamp(a) == Stamp(b) { StrLeTotal(Stamp(a), Stamp(a)); }
      }
      assert a.fields + b.fields == b.fields;
    }
  }

  // ---------------------------------------------------------------- the cluster a row belongs to

  /** The latest version of its row among `rows`. */
  ghost predicate Latest(c: Codec, rows: seq<Row>, row: Row) {
    row in rows && forall s | s in rows && SameRow(row, s) :: Wins(c, row, s)
  }

  ghost function FirstPos(arrivals: seq<Arrival>, row: Row): Option<nat> {
    if arrivals == [] then None else
      var front, last := arrivals[..|arrivals| - 1], arrivals[|arrivals| - 1];
      if FirstPos(front, row).Some? then FirstPos(front, row)
      else if SameRow(row, last.row) then last.pos else None
  }

  /** The cluster of a row is settled by the row itself and by where the base has it. */
  ghost function ClusterFor(arrivals: seq<Arrival>, row: Row): Cluster {
    var pos := FirstPos(arrivals, row);
    Cluster(row, pos, if pos.Some? then RowId(row) else None, Listed(RowId(row)))
  }

  lemma {:induction false} FirstPosSame(rows: seq<Row>, arrivals: seq<Arrival>, a: Row, b: Row)
    requires Coherent(rows) && a in rows && b in rows && SameRow(a, b)
    requires forall x | x in arrivals :: x.row in rows
    ensures FirstPos(arrivals, a) == FirstPos(arrivals, b)
  {
    if arrivals != [] {
      var front, last := arrivals[..|arrivals| - 1], arrivals[|arrivals| - 1];
      assert last in arrivals;
      FirstPosSame(rows, front, a, b);
      if SameRow(a, last.row) { SameRowTransitive(rows, b, a, last.row); }
      if SameRow(b, last.row) { SameRowTransitive(rows, a, b, last.row); }
    }
  }

  lemma {:induction false} FirstPosFound(arrivals: seq<Arrival>, row: Row)
    ensures (forall x | x in arrivals :: !SameRow(row, x.row)) ==> FirstPos(arrivals, row).None?
  {
    if arrivals != [] {
      FirstPosFound(arrivals[..|arrivals| - 1], row);
      assert arrivals[|arrivals| - 1] in arrivals;
    }
  }

  // ---------------------------------------------------------------- what clustering computes

  ghost predicate AllLatest(c: Codec, cl: seq<Cluster>, arrivals: seq<Arrival>) {
    forall i | 0 <= i < |cl| :: Latest(c, RowsIn(arrivals), cl[i].row) && cl[i] == ClusterFor(arrivals, cl[i].row)
  }

  ghost predicate PairwiseApart(cl: seq<Cluster>) {
    forall i, j | 0 <= i < |cl| && 0 <= j < |cl| && i != j :: !SameRow(cl[i].row, cl[j].row)
  }

  ghost predicate Covered(cl: seq<Cluster>, arrivals: seq<Arrival>) {
    forall a | a in arrivals :: exists i :: 0 <= i < |cl| && SameRow(cl[i].row, a.row)
  }

  ghost predicate Summarizes(c: Codec, cl: seq<Cluster>, arrivals: seq<Arrival>) {
    AllLatest(c, cl, arrivals) && PairwiseApart(cl) && Covered(cl, arrivals)
  }

  lemma {:induction false} RowsInStep(front: seq<Arrival>, last: Arrival)
    ensures RowsIn(front + [last]) == RowsIn(front) + [last.row]
  {
  }

  lemma {:induction false} RowsInMembers(arrivals: seq<Arrival>, row: Row)
    ensures row in RowsIn(arrivals) <==> exists a :: a in arrivals && a.row == row
  {
    if row in RowsIn(arrivals) {
      var i :| 0 <= i < |arrivals| && RowsIn(arrivals)[i] == row;
      assert arrivals[i] in arrivals;
    }
    if a :| a in arrivals && a.row == row {
      var i :| 0 <= i < |arrivals| && arrivals[i] == a;
      assert RowsIn(arrivals)[i] == row;
    }
  }

  /** The row joining cluster `x` leaves the later of the two, still the cluster that row settles. */
  lemma {:induction false} JoinStep(c: Codec, rows: seq<Row>, front: seq<Arrival>, last: Arrival, x: Cluster)
    requires Coherent(rows) && last.row in rows && forall a | a in front :: a.row in rows
    requires Latest(c, RowsIn(front), x.row) && x == ClusterFor(front, x.row)
    requires SameRow(x.row, last.row)
    ensures var y := NoteRow(c, x, last);
      && y.row == Later(c, x.row, last.row)
      && SameRow(y.row, x.row) && SameRow(y.row, last.row)
      && Latest(c, RowsIn(front + [last]), y.row)
      && y == ClusterFor(front + [last], y.row)
  {
    var now := front + [last];
    var y := NoteRow(c, x, last);
    RowsInMembers(front, x.row);
    assert x.row in rows;
    assert VersionsAgree(x.row, last.row) && VersionsAgree(last.row, x.row);
    WinsTotal(c, x.row, last.row);
    if x.row.Obj? && last.row.Obj? && x.row != last.row {
      MergePairIsLater(c, x.row, last.row);
    }
    assert y.row == Later(c, x.row, last.row);
    RowsInStep(front, last);
    assert Latest(c, RowsIn(now), y.row) by {
      forall s | s in RowsIn(now) && SameRow(y.row, s) ensures Wins(c, y.row, s) {
        if s in RowsIn(front) {
          RowsInMembers(front, s);
          SameRowTransitive(rows, x.row, y.row, s);
          assert Wins(c, x.row, s);
          WinsTotal(c, y.row, y.row);
          if y.row != x.row {
            WinsTransitive(c, y.row, x.row, s);
          }
        } else {
          WinsTotal(c, last.row, last.row);
        }
      }
    }
    assert now[..|now| - 1] == front;
    FirstPosSame(rows, front, x.row, y.row);
  }

  lemma {:induction false} KeepStep(c: Codec, rows: seq<Row>, front: seq<Arrival>, last: Arrival, x: Cluster)
    requires Latest(c, RowsIn(front), x.row) && x == ClusterFor(front, x.row)
    requires !SameRow(x.row, last.row)
    ensures Latest(c, RowsIn(front + [last]), x.row) && x == ClusterFor(front + [last], x.row)
  {
    var now := front + [last];
    RowsInStep(front, last);
    assert now[..|now| - 1] == front;
  }

  lemma {:induction false} NewStep(c: Codec, front: seq<Arrival>, last: Arrival)
    requires forall a | a in front :: !SameRow(a.row, last.row)
    ensures var y := NoteRow(c, NewCluster(last.row), last);
      y.row == last.row && Latest(c, RowsIn(front + [last]), last.row) && y == ClusterFor(front + [last], last.row)
  {
    var now := front + [last];
    RowsInStep(front, last);
    assert now[..|now| - 1] == front;
    FirstPosFound(front, last.row);
    WinsTotal(c, last.row, last.row);
    forall s | s in RowsIn(now) && SameRow(last.row, s) ensures Wins(c, last.row, s) {
      if s in RowsIn(front) {
        RowsInMembers(front, s);
      }
    }
  }

  lemma {:induction false} BuildSummarizes(c: Codec, rows: seq<Row>, arrivals: seq<Arrival>)
    requires Coherent(rows) && forall a | a in arrivals :: a.row in rows
    ensures Summarizes(c, Build(c, arrivals), arrivals)
  {
    if arrivals != [] {
      var front, last := arrivals[..|arrivals| - 1], arrivals[|arrivals| - 1];
      assert arrivals == front + [last];
      assert last in arrivals;
      BuildSummarizes(c, rows, front);
      AbsorbSummarizes(c, rows, front, last, Build(c, front));
    }
  }

  /** Where the last arrival landed, and that nothing else moved. */
  ghost predicate Landed(rows: seq<Row>, cl: seq<Cluster>, r: seq<Cluster>, last: Row, k: nat) {
    && k < |r| && |cl| <= |r| <= |cl| + 1 && (k == |cl| <==> |r| == |cl| + 1)
    && (forall i | 0 <= i < |cl| && i != k :: r[i] == cl[i])
    && (forall i | 0 <= i < |cl| :: cl[i].row in rows)
    && r[k].row in rows && SameRow(r[k].row, last) && (k < |cl| ==> SameRow(r[k].row, cl[k].row))
    && (k == |cl| ==> forall i | 0 <= i < |cl| :: !SameRow(cl[i].row, last))
  }

  lemma {:induction false} NobodyKnows(rows: seq<Row>, front: seq<Arrival>, last: Row, cl: seq<Cluster>)
    requires Coherent(rows) && last in rows && forall a | a in front :: a.row in rows
    requires Covered(cl, front) && forall i | 0 <= i < |cl| :: cl[i].row in rows && !SameRow(cl[i].row, last)
    ensures forall a | a in front :: !SameRow(a.row, last)
  {
    forall a | a in front ensures !SameRow(a.row, last) {
      var i :| 0 <= i < |cl| && SameRow(cl[i].row, a.row);
      if SameRow(a.row, last) {
        SameRowTransitive(rows, cl[i].row, a.row, last);
      }
    }
  }

  lemma {:induction false} Landing(c: Codec, rows: seq<Row>, front: seq<Arrival>, last: Arrival, cl: seq<Cluster>)
    returns (k: nat)
    requires Coherent(rows) && last.row in rows && forall a | a in front :: a.row in rows
    requires Summarizes(c, cl, front)
    ensures var r, now := Absorb(c, cl, last), front + [last];
      && Landed(rows, cl, r, last.row, k)
      && Latest(c, RowsIn(now), r[k].row) && r[k] == ClusterFor(now, r[k].row)
  {
    var hit := FindHit(cl, last.row);
    k := if hit.Some? then hit.value else |cl|;
    forall i | 0 <= i < |cl| ensures cl[i].row in rows {
      RowsInMembers(front, cl[i].row);
    }
    if hit.Some? {
      JoinStep(c, rows, front, last, cl[k]);
    } else {
      NobodyKnows(rows, front, last.row, cl);
      NewStep(c, front, last);
    }
  }

  lemma {:induction false} LandedApart(rows: seq<Row>, cl: seq<Cluster>, r: seq<Cluster>, last: Row, k: nat)
    requires Coherent(rows) && last in rows && PairwiseApart(cl) && Landed(rows, cl, r, last, k)
    ensures PairwiseApart(r) && forall i | 0 <= i < |cl| && i != k :: !SameRow(cl[i].row, last)
  {
    forall i | 0 <= i < |cl| && i != k
      ensures !SameRow(cl[i].row, last) && !SameRow(cl[i].row, r[k].row) && !SameRow(r[k].row, cl[i].row)
    {
      if SameRow(cl[i].row, last) {
        SameRowTransitive(rows, cl[i].row, last, r[k].row);
        SameRowTransitive(rows, cl[i].row, r[k].row, cl[k].row);
      } else if SameRow(cl[i].row, r[k].row) {
        SameRowTransitive(rows, cl[i].row, r[k].row, last);
      }
    }
  }

  lemma {:induction false} LandedCovers(rows: seq<Row>, front: seq<Arrival>, last: Arrival, cl: seq<Cluster>,
          r: seq<Cluster>, k: nat)
    requires Coherent(rows) && last.row in rows && forall a | a in front :: a.row in rows
    requires Covered(cl, front) && Landed(rows, cl, r, last.row, k)
    ensures Covered(r, front + [last])
  {
    forall a | a in front + [last] ensures exists i :: 0 <= i < |r| && SameRow(r[i].row, a.row) {
      if a in front {
        var i :| 0 <= i < |cl| && SameRow(cl[i].row, a.row);
        if i == k {
          SameRowTransitive(rows, r[k].row, cl[k].row, a.row);
        }
        assert SameRow(r[i].row, a.row);
      } else {
        assert SameRow(r[k].row, a.row);
      }
    }
  }

  lemma {:induction false} AbsorbSummarizes(c: Codec, rows: seq<Row>, front: seq<Arrival>, last: Arrival,
          cl: seq<Cluster>)
    requires Coherent(rows) && last.row in rows && forall a | a in front :: a.row in rows
    requires Summarizes(c, cl, front)
    ensures Summarizes(c, Absorb(c, cl, last), front + [last])
  {
    var r := Absorb(c, cl, last);
    var k := Landing(c, rows, front, last, cl);
    LandedApart(rows, cl, r, last.row, k);
    LandedCovers(rows, front, last, cl, r, k);
    forall i | 0 <= i < |r|
      ensures Latest(c, RowsIn(front + [last]), r[i].row) && r[i] == ClusterFor(front + [last], r[i].row)
    {
      if i != k {
        KeepStep(c, rows, front, last, cl[i]);
      }
    }
  }

  // ---------------------------------------------------------------- independent of arrival order

  lemma {:induction false} FirstPosSides(base: seq<Row>, side: seq<Row>, row: Row)
    ensures FirstPos(BaseArrivals(base) + SideArrivals(side), row) == FirstPos(BaseArrivals(base), row)
  {
    var arrivals := BaseArrivals(base) + SideArrivals(side);
    if side == [] {
      assert arrivals == BaseArrivals(base);
    } else {
      FirstPosSides(base, side[..|side| - 1], row);
      assert arrivals[..|arrivals| - 1] == BaseArrivals(base) + SideArrivals(side[..|side| - 1]);
    }
  }

  /** Which clusters there are: one for the latest version of each row, at its place in the base. */
  lemma {:induction false} ClusterSet(c: Codec, base: seq<Row>, ours: seq<Row>, theirs: seq<Row>)
    requires CanonInjective(c) && Coherent(base + ours + theirs)
    ensures var cl := Build(c, Arrivals(base, ours, theirs));
      && NoDuplicates(cl)
      && (forall i, j | 0 <= i < j < |cl| :: !SameRow(cl[i].row, cl[j].row))
      && forall cu :: cu in cl <==>
           (Latest(c, base + ours + theirs, cu.row) && cu == ClusterFor(BaseArrivals(base), cu.row))
  {
    var rows := base + ours + theirs;
    var arrivals := Arrivals(base, ours, theirs);
    var cl := Build(c, arrivals);
    RowsInArrivals(base, ours, theirs);
    assert RowsIn(arrivals) == rows;
    AllSummarized(c, base, ours, theirs);
    assert NoDuplicates(cl);
    forall cu ensures cu in cl <==> (Latest(c, rows, cu.row) && cu == ClusterFor(BaseArrivals(base), cu.row)) {
      BasePlace(base, ours, theirs, cu.row);
      if Latest(c, rows, cu.row) && cu == ClusterFor(arrivals, cu.row) {
        LatestIsThere(c, arrivals, cl, cu);
      }
    }
  }

  lemma {:induction false} AllSummarized(c: Codec, base: seq<Row>, ours: seq<Row>, theirs: seq<Row>)
    requires Coherent(base + ours + theirs)
    ensures Summarizes(c, Build(c, Arrivals(base, ours, theirs)), Arrivals(base, ours, theirs))
  {
    var arrivals := Arrivals(base, ours, theirs);
    RowsInArrivals(base, ours, theirs);
    forall a | a in arrivals ensures a.row in base + ours + theirs {
      RowsInMembers(arrivals, a.row);
    }
    BuildSummarizes(c, base + ours + theirs, arrivals);
  }

  lemma {:induction false} BasePlace(base: seq<Row>, ours: seq<Row>, theirs: seq<Row>, row: Row)
    ensures ClusterFor(Arrivals(base, ours, theirs), row) == ClusterFor(BaseArrivals(base), row)
  {
    assert Arrivals(base, ours, theirs) == BaseArrivals(base) + SideArrivals(ours + theirs);
    FirstPosSides(base, ours + theirs, row);
  }

  lemma {:induction false} LatestIsThere(c: Codec, arrivals: seq<Arrival>, cl: seq<Cluster>, cu: Cluster)
    requires CanonInjective(c) && Summarizes(c, cl, arrivals)
    requires Latest(c, RowsIn(arrivals), cu.row) && cu == ClusterFor(arrivals, cu.row)
    ensures cu in cl
  {
    RowsInMembers(arrivals, cu.row);
    var a :| a in arrivals && a.row == cu.row;
    var i :| 0 <= i < |cl| && SameRow(cl[i].row, a.row);
    var x := cl[i];
    assert Latest(c, RowsIn(arrivals), x.row) && x == ClusterFor(arrivals, x.row);
    assert SameRow(cu.row, x.row);
    assert Wins(c, x.row, cu.row) && Wins(c, cu.row, x.row);
    WinsAntisymmetric(c, x.row, cu.row);
  }
}
