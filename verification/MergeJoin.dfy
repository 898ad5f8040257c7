/** On boards grown by appends from one base, the merge is a join: it equals a canonical board of the
    base and the set of appended contents, so it commutes, associates, and repeats without effect. */
module MergeJoin {
  import opened Prelude
  import opened BoardRows
  import opened IdSpace
  import opened MergeSpec
  import opened MergeVersions
  import opened MergeIds
  import opened MergeSymmetry
  import opened MergeCanonical

  // ---------------------------------------------------------------- the canonical board

  /** Contents in order of timestamp and text. */
  ghost function Sorted(c: Codec, s: set<Row>): seq<Row> {
    SortBy(PayLe(c), Listing(s))
  }

  ghost function Listing<T(!new)>(s: set<T>): (l: seq<T>)
    ensures NoDuplicates(l) && forall x :: x in l <==> x in s
  {
    if s == {} then [] else
      var x :| x in s;
      [x] + Listing(s - {x})
  }

  /** In order, each content takes its writer's id unless it is held already, and its derived id otherwise. */
  ghost function Place(c: Codec, w: Row -> Id, ps: seq<Row>, held: set<Id>): (rows: seq<Row>)
    requires forall p | p in ps :: p.Obj?
    ensures |rows| == |ps|
  {
    if ps == [] then [] else
      assert ps[0] in ps;
      var id := if w(ps[0]) !in held then w(ps[0]) else HomeOf(c, w, ps[0]);
      [Under(ps[0], id)] + Place(c, w, ps[1..], held + {id})
  }

  ghost function Canonical(c: Codec, w: Row -> Id, base: seq<Row>, s: set<Row>): seq<Row>
    requires forall p | p in s :: p.Obj?
  {
    SortPermutes(PayLe(c), Listing(s));
    base + Place(c, w, Sorted(c, s), IdsOf(base))
  }

  lemma {:induction false} PayLeTotal(c: Codec)
    ensures TotalPreorder(PayLe(c))
  {
    forall a: Row, b: Row ensures PayLe(c)(a, b) || PayLe(c)(b, a) {
      OrderLeTotal(c, a, b);
    }
    forall a: Row, b: Row, d: Row | PayLe(c)(a, b) && PayLe(c)(b, d) ensures PayLe(c)(a, d) {
      OrderLeTransitive(c, a, b, d);
    }
  }

  /** A sorted list of contents is determined by its set. */
  lemma {:induction false} SortedSetUnique(c: Codec, s: set<Row>, k: seq<Row>)
    requires CanonInjective(c) && forall p | p in s :: Payload(p) == p
    requires NoDuplicates(k) && (forall p :: p in k <==> p in s) && SortedBy(PayLe(c), k)
    ensures k == Sorted(c, s)
  {
    var l := Listing(s);
    SameElementsSameMultiset(k, l);
    PayLeTotal(c);
    SortPermutes(PayLe(c), l);
    SortSorts(PayLe(c), l);
    forall p, q | p in k && q in k && PayLe(c)(p, q) && PayLe(c)(q, p) ensures p == q {
      OrderLeAntisymmetric(c, p, q);
    }
    SortedUnique(PayLe(c), k, SortBy(PayLe(c), l));
  }

  /** No content before position `i` wants the id content `i` wants. */
  ghost predicate FirstToWant(w: Row -> Id, ps: seq<Row>, i: nat)
    requires i < |ps|
  {
    forall j | 0 <= j < i :: w(ps[j]) != w(ps[i])
  }

  lemma {:induction false} FirstToWantStep(w: Row -> Id, ps: seq<Row>, i: nat)
    requires 0 < i < |ps|
    ensures FirstToWant(w, ps, i) <==> (w(ps[0]) != w(ps[i]) && FirstToWant(w, ps[1..], i - 1))
  {
    if FirstToWant(w, ps[1..], i - 1) {
      forall j | 1 <= j < i ensures w(ps[j]) != w(ps[i]) {
        assert ps[j] == ps[1..][j - 1];
      }
    }
  }

  function PlacedId(c: Codec, w: Row -> Id, p: Row, free: bool): Id {
    if free then w(p) else HomeOf(c, w, p)
  }

  /** Who keeps the writer's id: exactly the first content wanting it, when the base does not hold it. */
  lemma {:induction false} PlaceExact(c: Codec, w: Row -> Id, u: set<Row>, ps: seq<Row>, held: set<Id>, i: nat)
    requires World(c, w, u) && i < |ps| && forall p | p in ps :: p in u
    ensures Place(c, w, ps, held)[i]
         == Under(ps[i], PlacedId(c, w, ps[i], w(ps[i]) !in held && FirstToWant(w, ps, i)))
  {
    hide *;
    WorldObjects(c, w, u, ps);
    PlaceHead(c, w, ps, held);
    if i == 0 {
      FirstWants(w, ps);
    } else {
      var id := PlacedId(c, w, ps[0], w(ps[0]) !in held);
      assert ps[0] in ps && ps[i] in ps && ps[1..][i - 1] == ps[i];
      PlacedClaim(c, w, u, ps[0], ps[i], w(ps[0]) !in held);
      PlaceExact(c, w, u, ps[1..], held + {id}, i - 1);
      FirstToWantStep(w, ps, i);
    }
  }

  lemma {:induction false} WorldObjects(c: Codec, w: Row -> Id, u: set<Row>, ps: seq<Row>)
    requires World(c, w, u) && forall p | p in ps :: p in u
    ensures forall p | p in ps :: p.Obj? && p in u
  {
  }

  lemma {:induction false} FirstWants(w: Row -> Id, ps: seq<Row>)
    requires ps != []
    ensures FirstToWant(w, ps, 0)
  {
  }

  lemma {:induction false} PlaceHead(c: Codec, w: Row -> Id, ps: seq<Row>, held: set<Id>)
    requires ps != [] && forall p | p in ps :: p.Obj?
    ensures ps[0].Obj?
    ensures var id := PlacedId(c, w, ps[0], w(ps[0]) !in held);
      Place(c, w, ps, held) == [Under(ps[0], id)] + Place(c, w, ps[1..], held + {id})
  {
    assert ps[0] in ps;
  }

  /** A content is placed under another one's writer id exactly when it has that writer id itself and it is free. */
  lemma {:induction false} PlacedClaim(c: Codec, w: Row -> Id, u: set<Row>, p: Row, q: Row, free: bool)
    requires World(c, w, u) && p in u && q in u
    ensures PlacedId(c, w, p, free) == w(q) <==> free && w(p) == w(q)
  {
    HomesApart(c, w, u, p, q);
  }

  // ---------------------------------------------------------------- boards grown from a base

  ghost predicate DistinctBase(base: seq<Row>) {
    NoRepeatedIds(base) && NoDuplicates(MapSeq(Payload, base))
  }

  function Appended(base: seq<Row>, rows: seq<Row>): set<Row> {
    PayloadsOf(rows) - PayloadsOf(base)
  }

  /** A board shows an appended content under its derived id only with reason: it also has the writer's row,
      or the base holds the id, or an earlier appended content wanted the same id. */
  ghost predicate Justified(c: Codec, w: Row -> Id, base: seq<Row>, rows: seq<Row>) {
    forall row | row in rows && row.Obj? && Payload(row) !in PayloadsOf(base) ::
      Reason(c, w, base, rows, Payload(row))
  }

  ghost predicate Reason(c: Codec, w: Row -> Id, base: seq<Row>, rows: seq<Row>, p: Row)
    requires p.Obj?
  {
    || Under(p, w(p)) in rows
    || w(p) in IdsOf(base)
    || exists q :: q in Appended(base, rows) && q != p && OrderLe(c, q, p) && w(q) == w(p)
  }

  // ---------------------------------------------------------------- emission order

  lemma {:induction false} HomedApart(c: Codec, w: Row -> Id, u: set<Row>, base: seq<Row>)
    requires World(c, w, u) && Homed(c, w, u, base) && NoRepeatedIds(base)
    ensures ApartRows(base)
  {
    forall i, j | 0 <= i < j < |base| ensures !SameRow(base[i], base[j]) {
      assert base[i] in base && base[j] in base;
      if SameRow(base[i], base[j]) {
        HomedSameRow(c, w, u, base[i], base[j]);
      }
    }
  }

  /** The emission order: the base rows' own clusters, then the new ones sorted by content. */
  ghost predicate Shape(c: Codec, base: seq<Row>, rows: seq<Row>, front: seq<Cluster>, back: seq<Cluster>) {
    && |front| == |base|
    && (forall i | 0 <= i < |base| :: front[i].row == base[i] && front[i].baseId == RowId(base[i]))
    && (forall cu | cu in back :: cu.baseId.None?)
    && SortedBy(PayLe(c), MapSeq(PayloadOf, back))
  }

  lemma {:induction false} BackIsNew(c: Codec, cl: seq<Cluster>, n: nat)
    requires n <= |cl| && forall i | n <= i < |cl| :: cl[i].baseId.None?
    ensures forall cu | cu in SortBy(ContentLe(c), cl[n..]) :: cu.baseId.None?
  {
    SortPermutes(ContentLe(c), cl[n..]);
    forall cu | cu in SortBy(ContentLe(c), cl[n..]) ensures cu.baseId.None? {
      var k := BehindIndex(cl, n, cu);
    }
  }

  lemma {:induction false} EmissionShape(c: Codec, w: Row -> Id, u: set<Row>, base: seq<Row>, ours: seq<Row>,
          theirs: seq<Row>)
    returns (front: seq<Cluster>, back: seq<Cluster>)
    requires World(c, w, u) && Homed(c, w, u, base + ours + theirs) && NoRepeatedIds(base)
    ensures Ordered(c, Build(c, Arrivals(base, ours, theirs))) == front + back
    ensures Shape(c, base, base + ours + theirs, front, back)
  {
    var rows := base + ours + theirs;
    var cl := Build(c, Arrivals(base, ours, theirs));
    var n := |base|;
    assert Homed(c, w, u, base) by {
      forall row | row in base ensures HomedRow(c, w, u, row) { assert row in rows; }
    }
    HomedApart(c, w, u, base);
    assert Arrivals(base, ours, theirs) == BaseArrivals(base) + SideArrivals(ours + theirs);
    BuildSide(c, base, ours + theirs);
    BaseFirst(c, cl, base);
    HomedCoherent(c, w, u, rows);
    ClusterSet(c, base, ours, theirs);
    forall i | n <= i < |cl| ensures cl[i].baseId.None? {
      assert cl[i] in cl;
    }
    front, back := cl[..n], SortBy(ContentLe(c), cl[n..]);
    forall i | 0 <= i < n ensures front[i].row == base[i] && front[i].baseId == RowId(base[i]) {
      assert StandsFor(cl[i], base[i], i);
      assert cl[i] in cl && base[i] in rows;
      FirstPosNames(base, cl[i].row);
      HomedSameRow(c, w, u, cl[i].row, base[i]);
    }
    BackIsNew(c, cl, n);
    ContentLeTotal(c);
    SortSorts(ContentLe(c), cl[n..]);
    PayloadsSorted(c, back);
  }

  /** Contents come out base first, then the appended ones sorted. */
  lemma {:induction false} EmissionContents(c: Codec, base: seq<Row>, rows: seq<Row>, front: seq<Cluster>,
          back: seq<Cluster>)
    requires CanonInjective(c) && NoDuplicates(MapSeq(Payload, base))
    requires Shape(c, base, rows, front, back) && RowClusters(rows, front + back)
    ensures Contents(front + back) == MapSeq(Payload, base) + Sorted(c, PayloadsOf(rows) - PayloadsOf(base))
  {
    MapAppend(PayloadOf, front, back);
    assert MapSeq(PayloadOf, front) == MapSeq(Payload, base);
    var k := DistinctSplit(PayLe(c), MapSeq(Payload, base), MapSeq(PayloadOf, back));
    NewContents(rows, base, front + back, k);
    SortedSetUnique(c, PayloadsOf(rows) - PayloadsOf(base), k);
  }

  lemma {:induction false} DistinctSplit(le: (Row, Row) -> bool, a: seq<Row>, b: seq<Row>) returns (k: seq<Row>)
    requires NoDuplicates(a) && SortedBy(le, b)
    ensures Distinct(a + b) == a + k && NoDuplicates(k) && SortedBy(le, k)
    ensures forall p | p in k :: p !in a
  {
    DistinctTailSorted(le, a, b);
    k := Distinct(a + b)[|a|..];
    assert Distinct(a + b) == a + k;
    assert NoDuplicates(k) by {
      forall i, j | 0 <= i < j < |k| ensures k[i] != k[j] {
        assert k[i] == Distinct(a + b)[|a| + i] && k[j] == Distinct(a + b)[|a| + j];
      }
    }
  }

  lemma {:induction false} NewContents(rows: seq<Row>, base: seq<Row>, ordered: seq<Cluster>, k: seq<Row>)
    requires RowClusters(rows, ordered) && Contents(ordered) == MapSeq(Payload, base) + k
    requires forall p | p in k :: p !in MapSeq(Payload, base)
    ensures forall p :: p in k <==> p in PayloadsOf(rows) - PayloadsOf(base)
    ensures forall p | p in PayloadsOf(rows) :: Payload(p) == p
  {
    SameContents(base, MapSeq(Payload, base));
    forall p ensures p in k <==> p in PayloadsOf(rows) - PayloadsOf(base) {
      ContentsAreRows(rows, ordered, p);
    }
  }

  // ---------------------------------------------------------------- assignment

  lemma {:induction false} GroupLeader(base: seq<Row>, front: seq<Cluster>, back: seq<Cluster>, p: Row)
    requires |front| == |base|
    requires forall i | 0 <= i < |base| :: front[i].row == base[i] && front[i].baseId == RowId(base[i])
    requires NoDuplicates(MapSeq(Payload, base)) && (forall cu | cu in back :: cu.baseId.None?)
    requires Group(front + back, p) != []
    ensures forall i | 0 <= i < |base| && Payload(base[i]) == p :: Group(front + back, p)[0].baseId == RowId(base[i])
    ensures p !in PayloadsOf(base) ==> Group(front + back, p)[0].baseId.None?
  {
    FilterAppend(PaysAs(p), front, back);
    var g := Group(front + back, p);
    forall i | 0 <= i < |base| && Payload(base[i]) == p ensures g[0].baseId == RowId(base[i]) {
      forall j | 0 <= j < |front| && j != i ensures Payload(front[j].row) != Payload(front[i].row) {
        assert MapSeq(Payload, base)[i] != MapSeq(Payload, base)[j];
      }
      AloneInGroup(front, i);
    }
    if p !in PayloadsOf(base) {
      forall i | 0 <= i < |front| ensures !PaysAs(p)(front[i]) {
        assert base[i] in base;
      }
      FilterNone(PaysAs(p), front);
      assert g == Group(back, p);
      assert g[0] in Group(back, p);
    }
  }

  lemma {:induction false} RowIdsStep(base: seq<Row>)
    requires base != [] && RowId(base[0]).Some?
    ensures IdsOf(base) == {base[0].id.value} + IdsOf(base[1..])
  {
    forall x ensures x in IdsOf(base) <==> x in {base[0].id.value} + IdsOf(base[1..]) {
      if x in IdsOf(base[1..]) {
        var i :| 0 <= i < |base[1..]| && RowId(base[1..][i]) == Some(x);
        assert base[i + 1] == base[1..][i];
      }
      if x in IdsOf(base) && x != base[0].id.value {
        var i :| 0 <= i < |base| && RowId(base[i]) == Some(x);
        assert base[1..][i - 1] == base[i];
      }
    }
  }

  lemma {:induction false} BaseHead(c: Codec, es: seq<Entry>, base: seq<Row>, claimed: set<Id>, taken: set<Id>)
    requires 1 <= |base| <= |es| && NoRepeatedIds(base)
    requires forall i | 0 <= i < |base| :: base[i].Obj? && base[i].id.Some? && base[i].id.value !in claimed
    requires es[0].row.Obj? && Payload(es[0].row) == Payload(base[0]) && es[0].baseId == base[0].id
    ensures Assign(c, es, claimed, taken)
        == [base[0]] + Assign(c, es[1..], Added(claimed, base[0].id), Added(taken, base[0].id))
    ensures NoRepeatedIds(base[1..])
    ensures forall i | 0 <= i < |base[1..]| :: base[1..][i].id.value !in Added(claimed, base[0].id)
  {
    assert Choice(c, es[0], claimed, taken) == base[0].id;
    assert WithId(es[0].row, base[0].id) == base[0];
    forall i | 1 <= i < |base| ensures base[i].id.value !in Added(claimed, base[0].id) {
      assert RowId(base[0]) != RowId(base[i]);
    }
  }

  lemma {:induction false} AssignBasePart(c: Codec, es: seq<Entry>, base: seq<Row>, claimed: set<Id>, taken: set<Id>)
    requires |base| <= |es| && NoRepeatedIds(base)
    requires forall i | 0 <= i < |base| :: base[i].Obj? && base[i].id.Some? && base[i].id.value !in claimed
    requires forall i | 0 <= i < |base| :: es[i].row.Obj? && Payload(es[i].row) == Payload(base[i])
    requires forall i | 0 <= i < |base| :: es[i].baseId == base[i].id
    ensures Assign(c, es, claimed, taken)
         == base + Assign(c, es[|base|..], claimed + IdsOf(base), taken + IdsOf(base))
  {
    if base == [] {
      assert IdsOf(base) == {};
      assert es[0..] == es && claimed + {} == claimed && taken + {} == taken;
    } else {
      var id := base[0].id;
      BaseHead(c, es, base, claimed, taken);
      AssignBasePart(c, es[1..], base[1..], Added(claimed, id), Added(taken, id));
      RowIdsStep(base);
      HeadSplit(base);
      assert es[1..][|base[1..]|..] == es[|base|..];
      AppendAssociates([base[0]], base[1..],
          Assign(c, es[|base|..], claimed + IdsOf(base), taken + IdsOf(base)));
      UnionStep(claimed, id.value, IdsOf(base[1..]));
      UnionStep(taken, id.value, IdsOf(base[1..]));
    }
  }

  lemma {:induction false} UnionStep(s: set<Id>, x: Id, t: set<Id>)
    ensures s + {x} + t == s + ({x} + t)
  {
  }

  /** Each content arrived under its writer's id, or that id is held by the time its turn comes. */
  ghost predicate Wanted(w: Row -> Id, keys: seq<Row>, es: seq<Entry>, claimed: set<Id>)
    requires |es| == |keys|
  {
    forall i | 0 <= i < |keys| ::
      || w(keys[i]) in es[i].ids || w(keys[i]) in claimed
      || exists j :: 0 <= j < i && w(keys[j]) == w(keys[i])
  }

  lemma {:induction false} AssignNewPart(c: Codec, w: Row -> Id, u: set<Row>, rows: seq<Row>, es: seq<Entry>,
          keys: seq<Row>, claimed: set<Id>, taken: set<Id>, done: set<Row>)
    requires World(c, w, u) && Homed(c, w, u, rows) && done <= u
    requires NoDuplicates(keys) && forall p | p in keys :: p in u && p !in done
    requires AllEntriesFor(rows, es, keys) && forall i | 0 <= i < |es| :: es[i].baseId.None?
    requires ClaimedBy(c, w, claimed, done) && Wanted(w, keys, es, claimed)
    requires forall p | p in keys :: TakenFairly(c, w, rows, claimed, taken, p)
    ensures Assign(c, es, claimed, taken) == Place(c, w, keys, claimed)
  {
    if es != [] {
      var p := keys[0];
      assert p in keys;
      ChoiceIsPick(c, w, u, rows, es[0], p, claimed, taken, done);
      var id := Pick(c, w, es[0], p, claimed);
      assert id == if w(p) !in claimed then w(p) else HomeOf(c, w, p);
      StepInvariants(c, w, u, rows, keys, id, claimed, taken, done);
      forall i | 0 <= i < |keys[1..]|
        ensures w(keys[1..][i]) in es[1..][i].ids || w(keys[1..][i]) in claimed + {id}
             || exists j :: 0 <= j < i && w(keys[1..][j]) == w(keys[1..][i])
      {
        assert keys[1..][i] == keys[i + 1] && es[1..][i] == es[i + 1];
        if j :| 0 <= j < i + 1 && w(keys[j]) == w(keys[i + 1]) {
          if j > 0 {
            assert keys[1..][j - 1] == keys[j];
          }
        }
      }
      AssignNewPart(c, w, u, rows, es[1..], keys[1..], claimed + {id}, taken + {id}, done + {p});
    }
  }

  // ---------------------------------------------------------------- the canonical theorem

  ghost predicate GrownFrom(c: Codec, w: Row -> Id, u: set<Row>, base: seq<Row>, rows: seq<Row>) {
    Homed(c, w, u, rows) && Justified(c, w, base, rows)
  }

  lemma {:induction false} ReasonIsWant(c: Codec, w: Row -> Id, u: set<Row>, base: seq<Row>, side: seq<Row>,
          rows: seq<Row>, keys: seq<Row>, i: nat, ids: seq<Id>)
    requires World(c, w, u)
    requires Justified(c, w, base, side) && forall row | row in side :: row in rows && row.Obj?
    requires i < |keys| && keys[i] in PayloadsOf(side) && keys[i] !in PayloadsOf(base) && keys[i].Obj?
    requires forall p | p in keys :: Payload(p) == p
    requires SortedBy(PayLe(c), keys) && forall p :: p in keys <==> p in PayloadsOf(rows) - PayloadsOf(base)
    requires forall x :: x in ids <==> Under(keys[i], x) in rows
    ensures w(keys[i]) in ids || w(keys[i]) in IdsOf(base) || exists j :: 0 <= j < i && w(keys[j]) == w(keys[i])
  {
    var p := keys[i];
    var row :| row in side && Payload(row) == p;
    assert Reason(c, w, base, side, p);
    if q :| q in Appended(base, side) && q != p && OrderLe(c, q, p) && w(q) == w(p) {
      var r :| r in side && Payload(r) == q;
      assert r in rows;
      assert q in keys;
      var j :| 0 <= j < |keys| && keys[j] == q;
      if j > i {
        assert PayLe(c)(keys[i], keys[j]);
        OrderLeAntisymmetric(c, p, q);
      }
    }
  }

  /** CANONICAL BOARD: the base as it was, then every appended content once, sorted by timestamp and text,
      under its writer's id where that is free and its derived id where it is not. */
  lemma {:induction false} MergeIsCanonical(c: Codec, w: Row -> Id, u: set<Row>, base: seq<Row>, ours: seq<Row>,
          theirs: seq<Row>)
    requires World(c, w, u) && Homed(c, w, u, base) && DistinctBase(base)
    requires GrownFrom(c, w, u, base, ours) && GrownFrom(c, w, u, base, theirs)
    ensures forall p | p in Appended(base, ours) + Appended(base, theirs) :: p.Obj?
    ensures Merged(c, base, ours, theirs) == Canonical(c, w, base, Appended(base, ours) + Appended(base, theirs))
  {
    var rows := base + ours + theirs;
    AppendedObjects(c, w, u, base, ours, theirs);
    PayloadsUnion(base, ours, theirs);
    assert PayloadsOf(rows) - PayloadsOf(base) == Appended(base, ours) + Appended(base, theirs);
    EmissionPlan(c, w, u, base, ours, theirs);
    var ordered := Ordered(c, Build(c, Arrivals(base, ours, theirs)));
    PlanSettles(c, w, u, base, ours, theirs, ordered, Contents(ordered), Logical(ordered, Contents(ordered)));
  }

  lemma {:induction false} PlanSettles(c: Codec, w: Row -> Id, u: set<Row>, base: seq<Row>, ours: seq<Row>,
          theirs: seq<Row>, ordered: seq<Cluster>, keys: seq<Row>, es: seq<Entry>)
    requires World(c, w, u) && Homed(c, w, u, base) && NoRepeatedIds(base)
    requires GrownFrom(c, w, u, base, ours) && GrownFrom(c, w, u, base, theirs)
    requires RowClusters(base + ours + theirs, ordered) && Planned(c, base, base + ours + theirs, ordered, keys, es)
    requires forall p | p in PayloadsOf(base + ours + theirs) :: p.Obj?
    ensures Assign(c, es, {}, InitialTaken(ordered))
        == Canonical(c, w, base, PayloadsOf(base + ours + theirs) - PayloadsOf(base))
  {
    var rows := base + ours + theirs;
    var added := PayloadsOf(rows) - PayloadsOf(base);
    AllPlannedBase(c, w, u, base, rows, ordered, keys, es);
    BasePart(c, base, es, InitialTaken(ordered));
    PlannedTail(c, base, rows, ordered, keys, es);
    SortPermutes(PayLe(c), Listing(added));
    NewEntries(c, w, u, base, ours, theirs, ordered, Sorted(c, added), es[|base|..]);
  }

  lemma {:induction false} AppendedObjects(c: Codec, w: Row -> Id, u: set<Row>, base: seq<Row>, ours: seq<Row>,
          theirs: seq<Row>)
    requires World(c, w, u) && Homed(c, w, u, base) && Homed(c, w, u, ours) && Homed(c, w, u, theirs)
    ensures forall p | p in PayloadsOf(base + ours + theirs) :: p.Obj? && p in u
  {
    PayloadsUnion(base, ours, theirs);
  }

  /** One entry a content, base contents leading under their base ids, the appended ones sorted behind. */
  ghost predicate Planned(c: Codec, base: seq<Row>, rows: seq<Row>, ordered: seq<Cluster>, keys: seq<Row>,
          es: seq<Entry>) {
    && keys == MapSeq(Payload, base) + Sorted(c, PayloadsOf(rows) - PayloadsOf(base))
    && |es| == |keys|
    && (forall i | 0 <= i < |keys| :: GroupEntry(rows, ordered, es[i], keys[i]))
    && (forall i | 0 <= i < |base| :: es[i].baseId == RowId(base[i]))
    && (forall i | |base| <= i < |keys| && keys[i] !in PayloadsOf(base) :: es[i].baseId.None?)
  }

  lemma {:induction false} EmissionPlan(c: Codec, w: Row -> Id, u: set<Row>, base: seq<Row>, ours: seq<Row>,
          theirs: seq<Row>)
    requires World(c, w, u) && DistinctBase(base)
    requires Homed(c, w, u, base) && Homed(c, w, u, ours) && Homed(c, w, u, theirs)
    ensures var ordered := Ordered(c, Build(c, Arrivals(base, ours, theirs)));
      && RowClusters(base + ours + theirs, ordered)
      && Planned(c, base, base + ours + theirs, ordered, Contents(ordered), Logical(ordered, Contents(ordered)))
  {
    var rows := base + ours + theirs;
    assert Homed(c, w, u, rows);
    var front, back := EmissionShape(c, w, u, base, ours, theirs);
    var ordered := front + back;
    AreRowClusters(c, w, u, base, ours, theirs);
    EmissionContents(c, base, rows, front, back);
    var keys := Contents(ordered);
    EntriesMatch(c, w, u, rows, ordered, keys);
    LeadersOf(c, rows, base, front, back, keys, Logical(ordered, keys));
  }

  lemma {:induction false} PlannedBase(c: Codec, w: Row -> Id, u: set<Row>, base: seq<Row>, rows: seq<Row>,
          ordered: seq<Cluster>, keys: seq<Row>, es: seq<Entry>, i: nat)
    requires Homed(c, w, u, base) && Planned(c, base, rows, ordered, keys, es) && i < |base|
    ensures base[i].Obj? && base[i].id.Some? && es[i].row.Obj? && Payload(es[i].row) == Payload(base[i])
    ensures es[i].baseId == base[i].id
  {
    assert base[i] in base;
    assert keys[i] == MapSeq(Payload, base)[i];
    assert GroupEntry(rows, ordered, es[i], keys[i]);
  }

  lemma {:induction false} BasePart(c: Codec, base: seq<Row>, es: seq<Entry>, taken: set<Id>)
    requires NoRepeatedIds(base) && |base| <= |es|
    requires forall i | 0 <= i < |base| :: base[i].Obj? && base[i].id.Some?
    requires forall i | 0 <= i < |base| :: es[i].row.Obj? && Payload(es[i].row) == Payload(base[i])
    requires forall i | 0 <= i < |base| :: es[i].baseId == base[i].id
    ensures Assign(c, es, {}, taken) == base + Assign(c, es[|base|..], IdsOf(base), taken + IdsOf(base))
  {
    AssignBasePart(c, es, base, {}, taken);
    assert {} + IdsOf(base) == IdsOf(base);
  }

  lemma {:induction false} AllPlannedBase(c: Codec, w: Row -> Id, u: set<Row>, base: seq<Row>, rows: seq<Row>,
          ordered: seq<Cluster>, keys: seq<Row>, es: seq<Entry>)
    requires Homed(c, w, u, base) && Planned(c, base, rows, ordered, keys, es)
    ensures |base| <= |es|
    ensures forall i | 0 <= i < |base| :: base[i].Obj? && base[i].id.Some?
    ensures forall i | 0 <= i < |base| :: es[i].row.Obj? && Payload(es[i].row) == Payload(base[i])
    ensures forall i | 0 <= i < |base| :: es[i].baseId == base[i].id
  {
    forall i | 0 <= i < |base|
      ensures base[i].Obj? && base[i].id.Some? && es[i].row.Obj? && Payload(es[i].row) == Payload(base[i])
      ensures es[i].baseId == base[i].id
    {
      PlannedBase(c, w, u, base, rows, ordered, keys, es, i);
    }
  }

  lemma {:induction false} LeadersOf(c: Codec, rows: seq<Row>, base: seq<Row>, front: seq<Cluster>, back: seq<Cluster>,
          keys: seq<Row>, es: seq<Entry>)
    requires Shape(c, base, rows, front, back) && NoDuplicates(MapSeq(Payload, base))
    requires |es| == |keys| && forall i | 0 <= i < |keys| :: GroupEntry(rows, front + back, es[i], keys[i])
    requires |base| <= |keys| && keys[..|base|] == MapSeq(Payload, base)
    ensures forall i | 0 <= i < |base| :: es[i].baseId == RowId(base[i])
    ensures forall i | |base| <= i < |keys| && keys[i] !in PayloadsOf(base) :: es[i].baseId.None?
  {
    forall i | 0 <= i < |keys|
      ensures i < |base| ==> es[i].baseId == RowId(base[i])
      ensures keys[i] !in PayloadsOf(base) ==> es[i].baseId.None?
    {
      assert GroupEntry(rows, front + back, es[i], keys[i]);
      GroupLeader(base, front, back, keys[i]);
      if i < |base| {
        assert keys[i] == keys[..|base|][i] == Payload(base[i]);
      }
    }
  }

  lemma {:induction false} SortedMembers(c: Codec, s: set<Row>, i: nat)
    requires i < |Sorted(c, s)|
    ensures Sorted(c, s)[i] in s
  {
    SortPermutes(PayLe(c), Listing(s));
    assert Sorted(c, s)[i] in Sorted(c, s);
  }

  lemma {:induction false} TailAt(front: seq<Row>, k: seq<Row>, i: nat)
    requires |front| <= i < |front| + |k|
    ensures (front + k)[i] == k[i - |front|]
  {
  }

  lemma {:induction false} PlannedNewAt(c: Codec, base: seq<Row>, rows: seq<Row>, ordered: seq<Cluster>,
          keys: seq<Row>, es: seq<Entry>, i: nat)
    requires Planned(c, base, rows, ordered, keys, es)
    requires |base| <= i < |es|
    ensures var k := Sorted(c, PayloadsOf(rows) - PayloadsOf(base));
      |es| == |base| + |k| && EntryFor(rows, es[i], k[i - |base|]) && es[i].baseId.None?
  {
    TailAt(MapSeq(Payload, base), Sorted(c, PayloadsOf(rows) - PayloadsOf(base)), i);
    SortedMembers(c, PayloadsOf(rows) - PayloadsOf(base), i - |base|);
    assert GroupEntry(rows, ordered, es[i], keys[i]);
  }

  lemma {:induction false} PlannedNew(c: Codec, base: seq<Row>, rows: seq<Row>, ordered: seq<Cluster>, keys: seq<Row>,
          es: seq<Entry>)
    requires Planned(c, base, rows, ordered, keys, es)
    ensures var k := Sorted(c, PayloadsOf(rows) - PayloadsOf(base));
      |es| == |base| + |k| && forall i | 0 <= i < |k| ::
          EntryFor(rows, es[|base| + i], k[i]) && es[|base| + i].baseId.None?
  {
    var k := Sorted(c, PayloadsOf(rows) - PayloadsOf(base));
    forall i | 0 <= i < |k| ensures EntryFor(rows, es[|base| + i], k[i]) && es[|base| + i].baseId.None? {
      PlannedNewAt(c, base, rows, ordered, keys, es, |base| + i);
    }
  }

  lemma {:induction false} TailEntries(rows: seq<Row>, es: seq<Entry>, n: nat, k: seq<Row>)
    requires |es| == n + |k| && forall i | 0 <= i < |k| :: EntryFor(rows, es[n + i], k[i]) && es[n + i].baseId.None?
    ensures AllEntriesFor(rows, es[n..], k) && forall i | 0 <= i < |k| :: es[n..][i].baseId.None?
  {
  }

  lemma {:induction false} PlannedTail(c: Codec, base: seq<Row>, rows: seq<Row>, ordered: seq<Cluster>, keys: seq<Row>,
          es: seq<Entry>)
    requires Planned(c, base, rows, ordered, keys, es)
    ensures var k := Sorted(c, PayloadsOf(rows) - PayloadsOf(base));
      && |base| <= |es| && AllEntriesFor(rows, es[|base|..], k)
      && forall i | 0 <= i < |k| :: es[|base|..][i].baseId.None?
  {
    hide *;
    PlannedNew(c, base, rows, ordered, keys, es);
    TailEntries(rows, es, |base|, Sorted(c, PayloadsOf(rows) - PayloadsOf(base)));
  }

  lemma {:induction false} NewEntries(c: Codec, w: Row -> Id, u: set<Row>, base: seq<Row>, ours: seq<Row>,
          theirs: seq<Row>, ordered: seq<Cluster>, k: seq<Row>, fs: seq<Entry>)
    requires World(c, w, u) && Homed(c, w, u, base)
    requires GrownFrom(c, w, u, base, ours) && GrownFrom(c, w, u, base, theirs)
    requires RowClusters(base + ours + theirs, ordered)
    requires k == Sorted(c, PayloadsOf(base + ours + theirs) - PayloadsOf(base)) && forall p | p in k :: p.Obj?
    requires AllEntriesFor(base + ours + theirs, fs, k) && forall i | 0 <= i < |fs| :: fs[i].baseId.None?
    ensures Assign(c, fs, IdsOf(base), InitialTaken(ordered) + IdsOf(base)) == Place(c, w, k, IdsOf(base))
  {
    var rows := base + ours + theirs;
    var l := Listing(PayloadsOf(rows) - PayloadsOf(base));
    SortPermutes(PayLe(c), l);
    PermutationNoDuplicates(l, k);
    AppendedObjects(c, w, u, base, ours, theirs);
    assert Homed(c, w, u, rows);
    AllWanted(c, w, u, base, ours, theirs, k, fs);
    forall p | p in k ensures TakenFairly(c, w, rows, IdsOf(base), InitialTaken(ordered) + IdsOf(base), p) {
      InitiallyFair(c, w, u, rows, ordered, p);
    }
    BaseClaims(c, w, u, base);
    AssignNewPart(c, w, u, rows, fs, k, IdsOf(base), InitialTaken(ordered) + IdsOf(base), PayloadsOf(base));
  }

  lemma {:induction false} BaseClaims(c: Codec, w: Row -> Id, u: set<Row>, base: seq<Row>)
    requires Homed(c, w, u, base)
    ensures ClaimedBy(c, w, IdsOf(base), PayloadsOf(base)) && PayloadsOf(base) <= u
  {
    forall x | x in IdsOf(base)
      ensures exists q :: q in PayloadsOf(base) && (x == w(q) || x == HomeOf(c, w, q))
    {
      var i :| 0 <= i < |base| && RowId(base[i]) == Some(x);
      assert base[i] in base;
      assert HomedRow(c, w, u, base[i]);
      assert Payload(base[i]) in PayloadsOf(base);
    }
  }

  lemma {:induction false} AllWanted(c: Codec, w: Row -> Id, u: set<Row>, base: seq<Row>, ours: seq<Row>,
          theirs: seq<Row>, k: seq<Row>, fs: seq<Entry>)
    requires World(c, w, u) && Homed(c, w, u, base)
    requires GrownFrom(c, w, u, base, ours) && GrownFrom(c, w, u, base, theirs)
    requires k == Sorted(c, PayloadsOf(base + ours + theirs) - PayloadsOf(base))
    requires AllEntriesFor(base + ours + theirs, fs, k)
    ensures Wanted(w, k, fs, IdsOf(base))
  {
    var rows := base + ours + theirs;
    var l := Listing(PayloadsOf(rows) - PayloadsOf(base));
    SortPermutes(PayLe(c), l);
    PayLeTotal(c);
    SortSorts(PayLe(c), l);
    PayloadsUnion(base, ours, theirs);
    AppendedObjects(c, w, u, base, ours, theirs);
    forall p | p in k ensures Payload(p) == p && p.Obj? {
    }
    forall i | 0 <= i < |k|
      ensures w(k[i]) in fs[i].ids || w(k[i]) in IdsOf(base) || exists j :: 0 <= j < i && w(k[j]) == w(k[i])
    {
      assert k[i] in k;
      assert EntryFor(rows, fs[i], k[i]);
      if k[i] in PayloadsOf(ours) {
        ReasonIsWant(c, w, u, base, ours, rows, k, i, fs[i].ids);
      } else {
        ReasonIsWant(c, w, u, base, theirs, rows, k, i, fs[i].ids);
      }
    }
  }
}
