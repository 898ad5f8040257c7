/** What follows for whole histories: the algebra of merging, convergence of clones, and closure over
    any tree of appends and merges. */
module MergeHistory {
  import opened Prelude
  import opened BoardRows
  import opened IdSpace
  import opened MergeSpec
  import opened MergeIds
  import opened MergeSymmetry
  import opened MergeCanonical
  import opened MergeJoin

  // ---------------------------------------------------------------- canonical boards are grown boards

  lemma {:induction false} CanonicalRow(c: Codec, w: Row -> Id, u: set<Row>, base: seq<Row>, s: set<Row>, i: nat)
    requires World(c, w, u) && s <= u - PayloadsOf(base)
    requires i < |Sorted(c, s)|
    ensures forall p | p in Sorted(c, s) :: p.Obj?
    ensures var p := Sorted(c, s)[i];
      var free := w(p) !in IdsOf(base) && FirstToWant(w, Sorted(c, s), i);
      var row := Place(c, w, Sorted(c, s), IdsOf(base))[i];
      && p in s && row == Under(p, PlacedId(c, w, p, free)) && Payload(row) == p
  {
    SortPermutes(PayLe(c), Listing(s));
    SortedMembers(c, s, i);
    PlaceExact(c, w, u, Sorted(c, s), IdsOf(base), i);
  }

  lemma {:induction false} CanonicalContents(c: Codec, w: Row -> Id, u: set<Row>, base: seq<Row>, s: set<Row>)
    requires World(c, w, u) && Homed(c, w, u, base) && s <= u - PayloadsOf(base)
    ensures Homed(c, w, u, Canonical(c, w, base, s))
    ensures PayloadsOf(Canonical(c, w, base, s)) == PayloadsOf(base) + s
    ensures Appended(base, Canonical(c, w, base, s)) == s
  {
    var k := Sorted(c, s);
    SortPermutes(PayLe(c), Listing(s));
    var tail := Place(c, w, k, IdsOf(base));
    var board := Canonical(c, w, base, s);
    forall row | row in tail ensures HomedRow(c, w, u, row) && Payload(row) in s {
      var i :| 0 <= i < |tail| && tail[i] == row;
      CanonicalRow(c, w, u, base, s, i);
    }
    forall p ensures p in PayloadsOf(board) <==> p in PayloadsOf(base) + s {
      if p in s {
        var i :| 0 <= i < |k| && k[i] == p;
        CanonicalRow(c, w, u, base, s, i);
        assert tail[i] in board;
      }
      if p in PayloadsOf(base) {
        var row :| row in base && Payload(row) == p;
        assert row in board;
      }
    }
  }

  lemma {:induction false} CanonicalReason(c: Codec, w: Row -> Id, u: set<Row>, base: seq<Row>, s: set<Row>, i: nat)
    requires World(c, w, u) && Homed(c, w, u, base) && s <= u - PayloadsOf(base)
    requires i < |Sorted(c, s)|
    ensures Sorted(c, s)[i].Obj? && Reason(c, w, base, Canonical(c, w, base, s), Sorted(c, s)[i])
  {
    var k := Sorted(c, s);
    var board := Canonical(c, w, base, s);
    CanonicalContents(c, w, u, base, s);
    CanonicalRow(c, w, u, base, s, i);
    var p := k[i];
    var row := Place(c, w, k, IdsOf(base))[i];
    assert row in board;
    if w(p) !in IdsOf(base) && !FirstToWant(w, k, i) {
      var j :| 0 <= j < i && w(k[j]) == w(p);
      SortedMembers(c, s, j);
      PayLeTotal(c);
      SortSorts(PayLe(c), Listing(s));
      assert PayLe(c)(k[j], k[i]);
      SortPermutes(PayLe(c), Listing(s));
      PermutationNoDuplicates(Listing(s), k);
      assert k[j] != k[i];
    }
  }

  lemma {:induction false} CanonicalGrown(c: Codec, w: Row -> Id, u: set<Row>, base: seq<Row>, s: set<Row>)
    requires World(c, w, u) && Homed(c, w, u, base) && s <= u - PayloadsOf(base)
    ensures GrownFrom(c, w, u, base, Canonical(c, w, base, s))
  {
    var k := Sorted(c, s);
    var board := Canonical(c, w, base, s);
    CanonicalContents(c, w, u, base, s);
    SortPermutes(PayLe(c), Listing(s));
    forall row | row in board && row.Obj? && Payload(row) !in PayloadsOf(base)
      ensures Reason(c, w, base, board, Payload(row))
    {
      assert Payload(row) in PayloadsOf(board);
      assert Payload(row) in k;
      var i :| 0 <= i < |k| && k[i] == Payload(row);
      CanonicalReason(c, w, u, base, s, i);
    }
  }

  // ---------------------------------------------------------------- the algebra

  /** A base and sides a join applies to. */
  ghost predicate Joinable(c: Codec, w: Row -> Id, u: set<Row>, base: seq<Row>, a: seq<Row>, b: seq<Row>) {
    World(c, w, u) && Homed(c, w, u, base) && DistinctBase(base) && GrownFrom(c, w, u, base, a)
        && GrownFrom(c, w, u, base, b)
  }

  /** Joining boards grown from the base gives a board grown from the base, holding both sides' contents. */
  lemma {:induction false} JoinGrows(c: Codec, w: Row -> Id, u: set<Row>, base: seq<Row>, a: seq<Row>, b: seq<Row>)
    requires Joinable(c, w, u, base, a, b)
    ensures GrownFrom(c, w, u, base, Merged(c, base, a, b))
    ensures Appended(base, Merged(c, base, a, b)) == Appended(base, a) + Appended(base, b)
  {
    MergeIsCanonical(c, w, u, base, a, b);
    var s := Appended(base, a) + Appended(base, b);
    assert s <= u - PayloadsOf(base);
    CanonicalContents(c, w, u, base, s);
    CanonicalGrown(c, w, u, base, s);
  }

  lemma {:induction false} JoinCommutes(c: Codec, w: Row -> Id, u: set<Row>, base: seq<Row>, a: seq<Row>, b: seq<Row>)
    requires Joinable(c, w, u, base, a, b)
    ensures Merged(c, base, a, b) == Merged(c, base, b, a)
  {
    MergeIsCanonical(c, w, u, base, a, b);
    MergeIsCanonical(c, w, u, base, b, a);
    assert Appended(base, a) + Appended(base, b) == Appended(base, b) + Appended(base, a);
  }

  lemma {:induction false} JoinAssociates(c: Codec, w: Row -> Id, u: set<Row>, base: seq<Row>, a: seq<Row>,
          b: seq<Row>, d: seq<Row>)
    requires Joinable(c, w, u, base, a, b) && GrownFrom(c, w, u, base, d)
    ensures Merged(c, base, Merged(c, base, a, b), d) == Merged(c, base, a, Merged(c, base, b, d))
  {
    hide Merged, Homed, Justified, World;
    JoinTwice(c, w, u, base, a, b, d);
    JoinCommutes(c, w, u, base, a, Merged(c, base, b, d)) by {
      JoinGrows(c, w, u, base, b, d);
    }
    JoinTwice(c, w, u, base, b, d, a);
    assert Appended(base, a) + Appended(base, b) + Appended(base, d)
        == Appended(base, b) + Appended(base, d) + Appended(base, a);
  }

  lemma {:induction false} JoinTwice(c: Codec, w: Row -> Id, u: set<Row>, base: seq<Row>, a: seq<Row>, b: seq<Row>,
          d: seq<Row>)
    requires Joinable(c, w, u, base, a, b) && GrownFrom(c, w, u, base, d)
    ensures forall p | p in Appended(base, a) + Appended(base, b) + Appended(base, d) :: p.Obj?
    ensures Merged(c, base, Merged(c, base, a, b), d)
         == Canonical(c, w, base, Appended(base, a) + Appended(base, b) + Appended(base, d))
  {
    JoinGrows(c, w, u, base, a, b);
    MergeIsCanonical(c, w, u, base, Merged(c, base, a, b), d);
  }

  /** IDEMPOTENT: merging a side in again, or the result with itself, changes nothing. */
  lemma {:induction false} JoinIdempotent(c: Codec, w: Row -> Id, u: set<Row>, base: seq<Row>, a: seq<Row>, b: seq<Row>)
    requires Joinable(c, w, u, base, a, b)
    ensures var m := Merged(c, base, a, b);
      Merged(c, base, m, b) == m && Merged(c, base, a, m) == m && Merged(c, base, m, m) == m
  {
    var m := Merged(c, base, a, b);
    MergeIsCanonical(c, w, u, base, a, b);
    JoinGrows(c, w, u, base, a, b);
    MergeIsCanonical(c, w, u, base, m, b);
    MergeIsCanonical(c, w, u, base, a, m);
    MergeIsCanonical(c, w, u, base, m, m);
    var s := Appended(base, a) + Appended(base, b);
    assert s + Appended(base, b) == s && Appended(base, a) + s == s && s + s == s;
  }

  // ---------------------------------------------------------------- convergence of clones

  /** Clones of one base: each worked alone, or is the merge of two others. */
  datatype Clone = Alone(appended: seq<Row>) | Met(l: Clone, r: Clone)

  ghost predicate WritesFrom(u: set<Row>, base: seq<Row>, k: Clone) {
    match k
    case Alone(ps) => forall p | p in ps :: p in u && p.Obj? && p !in PayloadsOf(base)
    case Met(l, r) => WritesFrom(u, base, l) && WritesFrom(u, base, r)
  }

  ghost function Written(k: Clone): set<Row> {
    match k
    case Alone(ps) => set p | p in ps
    case Met(l, r) => Written(l) + Written(r)
  }

  function AsWritten(w: Row -> Id, ps: seq<Row>): seq<Row> {
    MapSeq((p: Row) => if p.Obj? then Under(p, w(p)) else p, ps)
  }

  ghost function CloneBoard(c: Codec, w: Row -> Id, base: seq<Row>, k: Clone): seq<Row> {
    match k
    case Alone(ps) => base + AsWritten(w, ps)
    case Met(l, r) => Merged(c, base, CloneBoard(c, w, base, l), CloneBoard(c, w, base, r))
  }

  lemma {:induction false} AloneGrown(c: Codec, w: Row -> Id, u: set<Row>, base: seq<Row>, ps: seq<Row>)
    requires World(c, w, u) && Homed(c, w, u, base) && WritesFrom(u, base, Alone(ps))
    ensures GrownFrom(c, w, u, base, base + AsWritten(w, ps))
    ensures Appended(base, base + AsWritten(w, ps)) == Written(Alone(ps))
  {
    var more := AsWritten(w, ps);
    var board := base + more;
    forall row | row in more
      ensures Payload(row) in ps && row == Under(Payload(row), w(Payload(row))) && HomedRow(c, w, u, row)
    {
      var i :| 0 <= i < |ps| && more[i] == row;
      assert ps[i] in ps;
    }
    forall row | row in board && row.Obj? && Payload(row) !in PayloadsOf(base)
      ensures Reason(c, w, base, board, Payload(row))
    {
      assert row !in base;
      assert row in more;
    }
    forall p ensures p in Appended(base, board) <==> p in Written(Alone(ps)) {
      if p in ps {
        var i :| 0 <= i < |ps| && ps[i] == p;
        assert more[i] in board && Payload(more[i]) == p;
      }
      if p in Appended(base, board) {
        var row :| row in board && Payload(row) == p;
        assert row !in base;
        assert row in more;
      }
    }
  }

  lemma {:induction false} CloneGrown(c: Codec, w: Row -> Id, u: set<Row>, base: seq<Row>, k: Clone)
    requires World(c, w, u) && Homed(c, w, u, base) && DistinctBase(base) && WritesFrom(u, base, k)
    ensures GrownFrom(c, w, u, base, CloneBoard(c, w, base, k))
    ensures Appended(base, CloneBoard(c, w, base, k)) == Written(k)
  {
    match k
    case Alone(ps) => AloneGrown(c, w, u, base, ps);
    case Met(l, r) =>
      CloneGrown(c, w, u, base, l);
      CloneGrown(c, w, u, base, r);
      JoinGrows(c, w, u, base, CloneBoard(c, w, base, l), CloneBoard(c, w, base, r));
  }

  /** CONVERGENCE: two clones that have met others hold the very same board as soon as they have seen the
      same contents, however their merges were nested, ordered or repeated. */
  lemma {:induction false} ClonesConverge(c: Codec, w: Row -> Id, u: set<Row>, base: seq<Row>, k: Clone, m: Clone)
    requires World(c, w, u) && Homed(c, w, u, base) && DistinctBase(base)
    requires WritesFrom(u, base, k) && WritesFrom(u, base, m) && k.Met? && m.Met?
    requires Written(k) == Written(m)
    ensures CloneBoard(c, w, base, k) == CloneBoard(c, w, base, m)
  {
    CloneGrown(c, w, u, base, k.l);
    CloneGrown(c, w, u, base, k.r);
    CloneGrown(c, w, u, base, m.l);
    CloneGrown(c, w, u, base, m.r);
    MergeIsCanonical(c, w, u, base, CloneBoard(c, w, base, k.l), CloneBoard(c, w, base, k.r));
    MergeIsCanonical(c, w, u, base, CloneBoard(c, w, base, m.l), CloneBoard(c, w, base, m.r));
  }

  // ---------------------------------------------------------------- any tree, any bases

  /** How a board came about: from nothing, by one more append, or by a merge of three earlier boards. */
  datatype History =
    | Blank
    | Append(before: History, content: Row)
    | Merge(base: History, ours: History, theirs: History)

  ghost predicate Over(u: set<Row>, h: History) {
    match h
    case Blank => true
    case Append(b, p) => Over(u, b) && p in u && p.Obj?
    case Merge(b, o, t) => Over(u, b) && Over(u, o) && Over(u, t)
  }

  ghost function Board(c: Codec, w: Row -> Id, h: History): seq<Row> {
    match h
    case Blank => []
    case Append(b, p) => Board(c, w, b) + AsWritten(w, [p])
    case Merge(b, o, t) => Merged(c, Board(c, w, b), Board(c, w, o), Board(c, w, t))
  }

  ghost function EverAppended(h: History): set<Row> {
    match h
    case Blank => {}
    case Append(b, p) => EverAppended(b) + {p}
    case Merge(b, o, t) => EverAppended(b) + EverAppended(o) + EverAppended(t)
  }

  lemma {:induction false} AppendOne(c: Codec, w: Row -> Id, u: set<Row>, board: seq<Row>, p: Row)
    requires World(c, w, u) && Homed(c, w, u, board) && p in u && p.Obj?
    ensures Homed(c, w, u, board + AsWritten(w, [p]))
    ensures PayloadsOf(board + AsWritten(w, [p])) == PayloadsOf(board) + {p}
  {
    var row := Under(p, w(p));
    assert AsWritten(w, [p]) == [row] && Payload(row) == p;
    forall q ensures q in PayloadsOf(board + [row]) <==> q in PayloadsOf(board) + {p} {
      if q in PayloadsOf(board) {
        var r :| r in board && Payload(r) == q;
        assert r in board + [row];
      }
      assert row in board + [row];
    }
  }

  /** CLOSURE: along any history the board holds exactly the contents ever appended to it, each under its
      writer's id or its derived id. */
  lemma {:induction false} HistoryHomed(c: Codec, w: Row -> Id, u: set<Row>, h: History)
    requires World(c, w, u) && Over(u, h)
    ensures Homed(c, w, u, Board(c, w, h)) && PayloadsOf(Board(c, w, h)) == EverAppended(h)
  {
    match h
    case Blank =>
    case Append(b, p) =>
      HistoryHomed(c, w, u, b);
      AppendOne(c, w, u, Board(c, w, b), p);
    case Merge(b, o, t) =>
      HistoryHomed(c, w, u, b);
      HistoryHomed(c, w, u, o);
      HistoryHomed(c, w, u, t);
      MergeHomed(c, w, u, Board(c, w, b), Board(c, w, o), Board(c, w, t));
  }

  /** NO DUPLICATE GROWTH: whenever a history ends in a merge, each content ever appended occurs exactly once
      and no id occurs twice, whatever bases and clones the merges before it used. */
  lemma {:induction false} MergedHistory(c: Codec, w: Row -> Id, u: set<Row>, h: History)
    requires World(c, w, u) && Over(u, h) && h.Merge?
    ensures NoRepeatedIds(Board(c, w, h))
    ensures NoDuplicates(MapSeq(Payload, Board(c, w, h)))
    ensures PayloadsOf(Board(c, w, h)) == EverAppended(h)
    ensures |Board(c, w, h)| == |EverAppended(h)|
  {
    HistoryHomed(c, w, u, h);
    HistoryHomed(c, w, u, h.base);
    HistoryHomed(c, w, u, h.ours);
    HistoryHomed(c, w, u, h.theirs);
    MergeHomed(c, w, u, Board(c, w, h.base), Board(c, w, h.ours), Board(c, w, h.theirs));
    var pays := MapSeq(Payload, Board(c, w, h));
    SameContents(Board(c, w, h), pays);
    CountDistinct(pays, EverAppended(h));
  }

  lemma {:induction false} CountDistinct<T>(s: seq<T>, e: set<T>)
    requires NoDuplicates(s) && forall x :: x in s <==> x in e
    ensures |s| == |e|
  {
    if s == [] {
      assert e == {};
    } else {
      var last := s[|s| - 1];
      assert s == s[..|s| - 1] + [last];
      CountDistinct(s[..|s| - 1], e - {last});
    }
  }
}
