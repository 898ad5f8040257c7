/** Concurrent appends: the merge computes a board that depends only on the base and on the set of
    contents appended, so merging is a join. */
module MergeCanonical {
  import opened Prelude
  import opened BoardRows
  import opened IdSpace
  import opened MergeSpec
  import opened MergeLossless
  import opened MergeVersions
  import opened MergeIds
  import opened MergeSymmetry

  // ---------------------------------------------------------------- the world of appended rows

  /** The unsalted band value of a content that arrived under `like`. */
  function Band(c: Codec, like: Id, p: Row): (n: nat)
    ensures DERIVED_ID_BASE <= n
  {
    BandValue(c, SeedText(c.digest(p), if like.Str? then like.s else "row"), 0)
  }

  /** The id a content is renumbered to while its first hash is free: the band value behind the prefix of the id it
      arrived under. */
  function Home(c: Codec, like: Id, p: Row): Id {
    match like
    case Num(_) => Num(Band(c, like, p))
    case Str(s) => Str(s[..TailStart(s)] + DecimalText(Band(c, like, p)))
  }

  function HomeOf(c: Codec, w: Row -> Id, p: Row): Id {
    Home(c, w(p), p)
  }

  function BandOf(c: Codec, w: Row -> Id, p: Row): nat {
    Band(c, w(p), p)
  }

  /** An id as writers allocate them: a number or a prefixed number, below the band. */
  predicate WriterId(id: Id) {
    Numeric(id) && !IsDerived(id)
  }

  /** Contents `u`, each given one writer id below the band by whoever appended it. Two contents whose ids print alike
      say different things about what they are, and no two hash to the same band value. */
  ghost predicate World(c: Codec, w: Row -> Id, u: set<Row>) {
    && CanonInjective(c)
    && (forall p | p in u :: p.Obj? && p.id.None? && WriterId(w(p)))
    && (forall p, q | p in u && q in u && p != q :: BandOf(c, w, p) != BandOf(c, w, q))
    && (forall p, q | p in u && q in u && p != q && IdText(w(p)) == IdText(w(q)) ::
        !AgreeOnIdentity(p.fields, q.fields))
  }

  ghost predicate HomedRow(c: Codec, w: Row -> Id, u: set<Row>, row: Row) {
    && row.Obj? && Payload(row) in u
    && (row.id == Some(w(Payload(row))) || row.id == Some(HomeOf(c, w, Payload(row))))
  }

  /** The printed home ends in the band value, and in nothing longer. */
  lemma {:induction false} HomeText(c: Codec, like: Id, p: Row)
    requires Numeric(like)
    ensures var s := IdText(Home(c, like, p));
      HasTail(s) && DecimalValue(s[TailStart(s)..]) == Band(c, like, p)
    ensures IsDerived(Home(c, like, p))
  {
    var n := Band(c, like, p);
    var s := IdText(Home(c, like, p));
    var k := if like.Num? then 0 else TailStart(like.s);
    DecimalRoundTrip(n);
    assert s[k..] == DecimalText(n);
    TailStartIs(s, k);
  }

  /** No writer id prints like a home, and homes on different band values print differently. */
  lemma {:induction false} TextsApart(c: Codec, a: Id, p: Row, b: Id, q: Row)
    requires WriterId(a) && WriterId(b)
    ensures IsDerived(Home(c, a, p)) && IdText(Home(c, a, p)) != IdText(b)
    ensures Band(c, a, p) != Band(c, b, q) ==> IdText(Home(c, a, p)) != IdText(Home(c, b, q))
  {
    HomeText(c, a, p);
    HomeText(c, b, q);
    hide Home, Band, IdText, HasTail, TailStart, DecimalValue;
  }

  lemma {:induction false} BareApart(c: Codec, a: Id, p: Row, b: Id, q: Row)
    requires WriterId(b)
    ensures Num(Band(c, a, p)) != b
    ensures Band(c, a, p) != Band(c, b, q) ==> Num(Band(c, a, p)) != Home(c, b, q)
  {
    NumberDerived(Band(c, a, p));
  }

  /** What `World` says of two contents. */
  lemma {:induction false} WorldPair(c: Codec, w: Row -> Id, u: set<Row>, p: Row, q: Row)
    requires World(c, w, u) && p in u && q in u
    ensures p.Obj? && p.id.None? && q.Obj? && q.id.None? && WriterId(w(p)) && WriterId(w(q))
    ensures p != q ==> Band(c, w(p), p) != Band(c, w(q), q)
    ensures p != q && IdText(w(p)) == IdText(w(q)) ==> !AgreeOnIdentity(p.fields, q.fields)
  {
    assert BandOf(c, w, p) == Band(c, w(p), p) && BandOf(c, w, q) == Band(c, w(q), q);
  }

  /** Homes of different contents print differently, and no writer id prints like a home. */
  lemma {:induction false} HomesApart(c: Codec, w: Row -> Id, u: set<Row>, p: Row, q: Row)
    requires World(c, w, u) && p in u && q in u
    ensures IdText(HomeOf(c, w, p)) != IdText(w(q)) && HomeOf(c, w, p) != w(q)
    ensures IsDerived(HomeOf(c, w, p)) && !IsDerived(w(q)) && !IsDerived(w(p))
    ensures p != q ==> IdText(HomeOf(c, w, p)) != IdText(HomeOf(c, w, q)) && HomeOf(c, w, p) != HomeOf(c, w, q)
    ensures Num(BandOf(c, w, p)) != w(q) && (p != q ==> Num(BandOf(c, w, p)) != HomeOf(c, w, q))
  {
    WorldPair(c, w, u, p, q);
    hide World, Home, Band, IdText, IsDerived;
    TextsApart(c, w(p), p, w(q), q);
    BareApart(c, w(p), p, w(q), q);
  }

  /** Every row stands under its content's writer id or its derived id. */
  ghost predicate Homed(c: Codec, w: Row -> Id, u: set<Row>, rows: seq<Row>) {
    forall row | row in rows :: HomedRow(c, w, u, row)
  }

  lemma {:induction false} HomedSameRow(c: Codec, w: Row -> Id, u: set<Row>, a: Row, b: Row)
    requires World(c, w, u) && HomedRow(c, w, u, a) && HomedRow(c, w, u, b) && SameRow(a, b)
    ensures a == b
  {
    var p, q := Payload(a), Payload(b);
    assert p.fields == a.fields && q.fields == b.fields;
    WorldPair(c, w, u, p, q);
    HomesApart(c, w, u, p, q);
    HomesApart(c, w, u, q, p);
  }

  lemma {:induction false} HomedCoherent(c: Codec, w: Row -> Id, u: set<Row>, rows: seq<Row>)
    requires World(c, w, u) && Homed(c, w, u, rows)
    ensures Coherent(rows)
    ensures forall row | row in rows :: Latest(c, rows, row)
  {
    forall a, b | a in rows && b in rows && SameRow(a, b) ensures a == b {
      HomedSameRow(c, w, u, a, b);
    }
    forall row ensures Wins(c, row, row) {
      WinsTotal(c, row, row);
    }
  }

  // ---------------------------------------------------------------- clusters and entries

  function Under(p: Row, id: Id): Row
    requires p.Obj?
  {
    p.(id := Some(id))
  }

  /** The one entry of content `p`: its ids are exactly those it arrived under. */
  ghost predicate EntryFor(rows: seq<Row>, e: Entry, p: Row) {
    && p.Obj? && e.row.Obj? && Payload(e.row) == p && e.row.id.Some? && e.row.id.value in e.ids
    && (forall x :: x in e.ids <==> Under(p, x) in rows)
    && (e.baseId.Some? ==> e.baseId.value in e.ids)
  }

  /** Clusters here are rows: each distinct row is one cluster. */
  ghost predicate RowClusters(rows: seq<Row>, ordered: seq<Cluster>) {
    && NoDuplicates(ordered)
    && (forall x, y | x in ordered && y in ordered && x.row == y.row :: x == y)
    && (forall row | row in rows :: exists cu :: cu in ordered && cu.row == row)
    && (forall cu | cu in ordered :: cu.row in rows && cu.row.Obj? && cu.row.id.Some?
                                     && (forall id :: id in ClusterIds(cu) <==> cu.row.id == Some(id))
                                     && (cu.baseId.Some? ==> cu.baseId == cu.row.id))
  }

  lemma {:induction false} DistinctOne(id: Id, n: nat)
    requires n >= 1
    ensures Distinct(seq(n, _ => id)) == [id]
  {
    var s := seq(n, _ => id);
    if n == 1 {
      assert s == [id];
      assert Distinct(s[..0]) == [];
    } else {
      assert s[..n - 1] == seq(n - 1, _ => id);
      DistinctOne(id, n - 1);
    }
  }

  lemma {:induction false} AreRowClusters(c: Codec, w: Row -> Id, u: set<Row>, base: seq<Row>, ours: seq<Row>,
          theirs: seq<Row>)
    requires World(c, w, u) && Homed(c, w, u, base + ours + theirs)
    ensures RowClusters(base + ours + theirs, Ordered(c, Build(c, Arrivals(base, ours, theirs))))
  {
    var rows := base + ours + theirs;
    var cl := Build(c, Arrivals(base, ours, theirs));
    var ordered := Ordered(c, cl);
    HomedCoherent(c, w, u, rows);
    ClusterSet(c, base, ours, theirs);
    OrderedSameClusters(c, cl);
    OrderedNoDuplicates(c, cl);
    forall row | row in rows ensures exists cu :: cu in ordered && cu.row == row {
      var cu := ClusterFor(BaseArrivals(base), row);
      assert cu.row == row && Latest(c, rows, cu.row);
      assert cu in cl;
    }
    forall cu | cu in ordered
      ensures cu.row in rows && HomedRow(c, w, u, cu.row) && cu == ClusterFor(BaseArrivals(base), cu.row)
    {
      assert cu in cl;
    }
    forall cu, id | cu in ordered ensures id in ClusterIds(cu) <==> cu.row.id == Some(id) {
      assert cu == ClusterFor(BaseArrivals(base), cu.row);
    }
  }

  lemma {:induction false} OrderedNoDuplicates(c: Codec, cl: seq<Cluster>)
    requires NoDuplicates(cl)
    ensures NoDuplicates(Ordered(c, cl))
  {
    var a, b := Filter(InBase, cl), Filter(IsNew, cl);
    FilterNoDuplicates(InBase, cl);
    FilterNoDuplicates(IsNew, cl);
    SortPermutes(BasePosLe, a);
    SortPermutes(ContentLe(c), b);
    PermutationNoDuplicates(a, SortBy(BasePosLe, a));
    PermutationNoDuplicates(b, SortBy(ContentLe(c), b));
    var s, t := SortBy(BasePosLe, a), SortBy(ContentLe(c), b);
    forall i, j | 0 <= i < |s| && 0 <= j < |t| ensures s[i] != t[j] {
      assert s[i] in s && t[j] in t;
    }
  }

  lemma {:induction false} PermutationNoDuplicates<T>(a: seq<T>, b: seq<T>)
    requires NoDuplicates(a) && multiset(a) == multiset(b)
    ensures NoDuplicates(b)
  {
    forall i, j | 0 <= i < j < |b| ensures b[i] != b[j] {
      NoDuplicatesMultiset(a, b[i]);
      if b[i] == b[j] {
        CountedTwice(b, i, j);
      }
    }
  }

  lemma {:induction false} CountedTwice<T>(b: seq<T>, i: nat, j: nat)
    requires i < j < |b| && b[i] == b[j]
    ensures multiset(b)[b[i]] >= 2
  {
    SplitAt(b, j);
    assert multiset(b) == multiset(b[..j]) + multiset{b[j]} + multiset(b[j + 1..]);
    assert b[i] in b[..j];
  }

  ghost predicate GroupEntry(rows: seq<Row>, ordered: seq<Cluster>, e: Entry, p: Row) {
    Group(ordered, p) != [] && EntryFor(rows, e, p) && e.baseId == Group(ordered, p)[0].baseId
  }

  lemma {:induction false} LoneEntry(rows: seq<Row>, ordered: seq<Cluster>, p: Row)
    requires RowClusters(rows, ordered) && p in Contents(ordered) && |Group(ordered, p)| == 1
    ensures EntriesOf(ordered, Group(ordered, p)) == [Single(Group(ordered, p)[0])]
    ensures GroupEntry(rows, ordered, Single(Group(ordered, p)[0]), p)
  {
    var g := Group(ordered, p);
    GroupIsRows(rows, ordered, p);
    var cu := g[0];
    assert g == [cu] && cu in g;
    SingleEntry(ordered, cu);
    LoneIds(cu);
    assert Payload(cu.row) == p;
    assert EntryFor(rows, Single(cu), p);
  }

  lemma {:induction false} LoneIds(cu: Cluster)
    ensures forall x :: x in GroupIds([cu]) <==> x in ClusterIds(cu)
  {
    forall x ensures x in GroupIds([cu]) <==> x in ClusterIds(cu) {
      assert x in GroupIds([cu]) <==> x in AllIds([cu]);
    }
  }

  /** The writer's row and the renumbered row: some id of the two is derived, so they fold. */
  lemma {:induction false} PairFolds(c: Codec, w: Row -> Id, u: set<Row>, rows: seq<Row>, ordered: seq<Cluster>, p: Row)
    requires World(c, w, u) && Homed(c, w, u, rows) && RowClusters(rows, ordered)
    requires p in Contents(ordered) && |Group(ordered, p)| > 1
    ensures Collapses(ordered, Group(ordered, p))
  {
    var g := Group(ordered, p);
    FilterNoDuplicates(PaysAs(p), ordered);
    GroupIsRows(rows, ordered, p);
    hide Collapses, GroupIds, AllIds, Contested, Contents, Filter;
    var x, y := g[0], g[1];
    assert x in g && y in g && x != y && x.row != y.row;
    assert HomedRow(c, w, u, x.row) && HomedRow(c, w, u, y.row);
    OneIsHome(c, w, u, p, x.row, y.row);
    HomesApart(c, w, u, p, p);
    HomeFolds(rows, ordered, p, HomeOf(c, w, p));
  }

  lemma {:induction false} OneIsHome(c: Codec, w: Row -> Id, u: set<Row>, p: Row, x: Row, y: Row)
    requires HomedRow(c, w, u, x) && HomedRow(c, w, u, y) && x != y && Payload(x) == Payload(y) == p
    ensures x == Under(p, HomeOf(c, w, p)) || y == Under(p, HomeOf(c, w, p))
  {
  }

  lemma {:induction false} HomeFolds(rows: seq<Row>, ordered: seq<Cluster>, p: Row, home: Id)
    requires RowClusters(rows, ordered) && p in Contents(ordered) && |Group(ordered, p)| > 1 && p.Obj?
    requires Under(p, home) in rows && IsDerived(home)
    ensures Collapses(ordered, Group(ordered, p))
  {
    GroupIsRows(rows, ordered, p);
    assert home in GroupIds(Group(ordered, p));
    assert AnyDerived(GroupIds(Group(ordered, p)));
  }

  lemma {:induction false} FoldedEntry(rows: seq<Row>, ordered: seq<Cluster>, p: Row)
    requires RowClusters(rows, ordered) && p in Contents(ordered) && Collapses(ordered, Group(ordered, p))
    ensures |EntriesOf(ordered, Group(ordered, p))| == 1
    ensures GroupEntry(rows, ordered, EntriesOf(ordered, Group(ordered, p))[0], p)
  {
    var g := Group(ordered, p);
    GroupIsRows(rows, ordered, p);
    assert g[0] in g;
    assert Payload(g[0].row) == p;
  }

  /** A content's group is one entry: one row, or the writer's row and the renumbered row folded together. */
  lemma {:induction false} OneEntry(c: Codec, w: Row -> Id, u: set<Row>, rows: seq<Row>, ordered: seq<Cluster>, p: Row)
    requires World(c, w, u) && Homed(c, w, u, rows) && RowClusters(rows, ordered)
    requires p in Contents(ordered)
    ensures var es := EntriesOf(ordered, Group(ordered, p));
      |es| == 1 && GroupEntry(rows, ordered, es[0], p)
  {
    var g := Group(ordered, p);
    var cu :| cu in ordered && Payload(cu.row) == p;
    assert cu in g;
    if |g| > 1 {
      PairFolds(c, w, u, rows, ordered, p);
      FoldedEntry(rows, ordered, p);
    } else {
      LoneEntry(rows, ordered, p);
    }
  }

  lemma {:induction false} GroupIsRows(rows: seq<Row>, ordered: seq<Cluster>, p: Row)
    requires RowClusters(rows, ordered) && p in Contents(ordered)
    ensures p.Obj?
    ensures forall cu | cu in Group(ordered, p) :: cu.row.Obj? && cu.row.id.Some? && cu.row == Under(p, cu.row.id.value)
    ensures forall x :: x in GroupIds(Group(ordered, p)) <==> Under(p, x) in rows
    ensures forall cu | cu in Group(ordered, p) :: cu.baseId.Some? ==> cu.baseId.value in GroupIds(Group(ordered, p))
    ensures forall cu | cu in Group(ordered, p) :: forall id :: id in ClusterIds(cu) <==> cu.row.id == Some(id)
  {
    var g := Group(ordered, p);
    var some :| some in ordered && Payload(some.row) == p;
    assert p.Obj?;
    forall cu | cu in g ensures cu.row == Under(p, cu.row.id.value) {
    }
    forall x ensures x in GroupIds(g) <==> Under(p, x) in rows {
      assert x in GroupIds(g) <==> x in AllIds(g);
      if x in AllIds(g) {
        var cu :| cu in g && x in ClusterIds(cu);
        assert cu.row == Under(p, x);
      }
      if Under(p, x) in rows {
        var cu :| cu in ordered && cu.row == Under(p, x);
        assert Payload(cu.row) == p by { assert p.id.None?; }
        assert cu in g && x in ClusterIds(cu);
      }
    }
    forall cu | cu in g && cu.baseId.Some? ensures cu.baseId.value in GroupIds(g) {
      assert cu.baseId.value in ClusterIds(cu);
      assert cu.baseId.value in AllIds(g);
    }
  }

  ghost predicate Matched(rows: seq<Row>, ordered: seq<Cluster>, es: seq<Entry>, keys: seq<Row>) {
    |es| == |keys| && forall i | 0 <= i < |keys| :: GroupEntry(rows, ordered, es[i], keys[i])
  }

  lemma {:induction false} MatchedStep(rows: seq<Row>, ordered: seq<Cluster>, keys: seq<Row>, p: Row)
    requires Matched(rows, ordered, Logical(ordered, keys), keys)
    requires var more := EntriesOf(ordered, Group(ordered, p)); |more| == 1 && GroupEntry(rows, ordered, more[0], p)
    ensures Matched(rows, ordered, Logical(ordered, keys + [p]), keys + [p])
  {
    LogicalSnoc(ordered, keys, p);
    MatchedAppend(rows, ordered, Logical(ordered, keys), keys, EntriesOf(ordered, Group(ordered, p)), p);
  }

  lemma {:induction false} MatchedAppend(rows: seq<Row>, ordered: seq<Cluster>, es: seq<Entry>, keys: seq<Row>,
          more: seq<Entry>, p: Row)
    requires Matched(rows, ordered, es, keys) && |more| == 1 && GroupEntry(rows, ordered, more[0], p)
    ensures Matched(rows, ordered, es + more, keys + [p])
  {
  }

  lemma {:induction false} EntriesMatch(c: Codec, w: Row -> Id, u: set<Row>, rows: seq<Row>, ordered: seq<Cluster>,
          keys: seq<Row>)
    requires World(c, w, u) && Homed(c, w, u, rows) && RowClusters(rows, ordered)
    requires forall p | p in keys :: p in Contents(ordered)
    ensures Matched(rows, ordered, Logical(ordered, keys), keys)
  {
    if keys != [] {
      var front, last := keys[..|keys| - 1], keys[|keys| - 1];
      assert last in keys && forall p | p in front :: p in keys;
      EntriesMatch(c, w, u, rows, ordered, front);
      OneEntry(c, w, u, rows, ordered, last);
      MatchedStep(rows, ordered, front, last);
      LastSplit(keys);
    }
  }

  // ---------------------------------------------------------------- the id each content gets

  /** Ids claimed so far belong to contents already placed. */
  ghost predicate ClaimedBy(c: Codec, w: Row -> Id, claimed: set<Id>, done: set<Row>) {
    forall x | x in claimed :: exists q :: q in done && (x == w(q) || x == HomeOf(c, w, q))
  }

  /** The allocator knows a band value only when somebody claimed it or its content arrived under it. */
  ghost predicate TakenFairly(c: Codec, w: Row -> Id, rows: seq<Row>, claimed: set<Id>, taken: set<Id>, p: Row)
    requires p.Obj?
  {
    Num(BandOf(c, w, p)) in taken ==> Num(BandOf(c, w, p)) in claimed || Under(p, Num(BandOf(c, w, p))) in rows
  }

  /** Base id first, then the writer's id when the row arrived under it, then the derived id. */
  function Pick(c: Codec, w: Row -> Id, e: Entry, p: Row, claimed: set<Id>): Id {
    if e.baseId.Some? && e.baseId.value !in claimed then e.baseId.value
    else if w(p) in e.ids && w(p) !in claimed then w(p)
    else HomeOf(c, w, p)
  }

  lemma {:induction false} ChoiceIsPick(c: Codec, w: Row -> Id, u: set<Row>, rows: seq<Row>, e: Entry, p: Row,
          claimed: set<Id>, taken: set<Id>, done: set<Row>)
    requires World(c, w, u) && Homed(c, w, u, rows) && p in u && done <= u && p !in done
    requires EntryFor(rows, e, p) && ClaimedBy(c, w, claimed, done) && TakenFairly(c, w, rows, claimed, taken, p)
    ensures Choice(c, e, claimed, taken) == Some(Pick(c, w, e, p, claimed))
    ensures Pick(c, w, e, p, claimed) !in claimed
    ensures WithId(e.row, Choice(c, e, claimed, taken)) == Under(p, Pick(c, w, e, p, claimed))
    ensures HomedRow(c, w, u, Under(p, Pick(c, w, e, p, claimed)))
  {
    var writer, home := w(p), HomeOf(c, w, p);
    HomesApart(c, w, u, p, p);
    HomeUnclaimed(c, w, u, p, claimed, done);
    forall x | x in e.ids ensures x == writer || x == home {
      assert HomedRow(c, w, u, Under(p, x));
      assert Payload(Under(p, x)) == p;
    }
    assert Payload(Under(p, Pick(c, w, e, p, claimed))) == p;
    OwnPick(e, writer, home, claimed);
    if OwnChoice(e, claimed).None? {
      FreshIsHome(c, w, u, rows, p, claimed, taken, done);
    }
  }

  /** Among a writer id and an unclaimed home, the writer id is preferred and the home never lost. */
  lemma {:induction false} OwnPick(e: Entry, writer: Id, home: Id, claimed: set<Id>)
    requires !IsDerived(writer) && IsDerived(home) && home !in claimed
    requires forall x | x in e.ids :: x == writer || x == home
    requires e.baseId.Some? ==> e.baseId.value in e.ids
    ensures OwnChoice(e, claimed) ==
      if e.baseId.Some? && e.baseId.value !in claimed then e.baseId
      else if writer in e.ids && writer !in claimed then Some(writer)
      else if home in e.ids then Some(home) else None
  {
    WriterFirst(writer, home);
    hide IdLe, IsDerived, SortBy, FirstUnclaimed;
    BestFree(e.ids, claimed);
  }

  lemma {:induction false} WriterFirst(writer: Id, home: Id)
    requires !IsDerived(writer) && IsDerived(home)
    ensures writer != home && !IdLe(home, writer)
  {
  }

  /** Neither the home nor its bare number belongs to a content placed before. */
  lemma {:induction false} HomeUnclaimed(c: Codec, w: Row -> Id, u: set<Row>, p: Row, claimed: set<Id>, done: set<Row>)
    requires World(c, w, u) && p in u && done <= u && p !in done && ClaimedBy(c, w, claimed, done)
    ensures HomeOf(c, w, p) !in claimed && Num(BandOf(c, w, p)) !in claimed
  {
    forall x | x in claimed ensures x != HomeOf(c, w, p) && x != Num(BandOf(c, w, p)) {
      var q :| q in done && (x == w(q) || x == HomeOf(c, w, q));
      hide World, HomeOf, BandOf;
      HomesApart(c, w, u, p, q);
    }
  }

  /** A row of `p` under its bare band value is a row under its home. */
  lemma {:induction false} BareRow(c: Codec, w: Row -> Id, u: set<Row>, rows: seq<Row>, p: Row)
    requires World(c, w, u) && Homed(c, w, u, rows) && p in u && p.Obj?
    ensures Under(p, Num(BandOf(c, w, p))) in rows ==> Num(BandOf(c, w, p)) == HomeOf(c, w, p)
  {
    var row := Under(p, Num(BandOf(c, w, p)));
    HomesApart(c, w, u, p, p);
    WorldPair(c, w, u, p, p);
    assert Payload(row) == p;
    assert row in rows ==> HomedRow(c, w, u, row);
  }

  /** Renumbering a content gives its home: nobody else stands on its band value. */
  lemma {:induction false} FreshIsHome(c: Codec, w: Row -> Id, u: set<Row>, rows: seq<Row>, p: Row, claimed: set<Id>,
          taken: set<Id>, done: set<Row>)
    requires World(c, w, u) && Homed(c, w, u, rows) && p in u && done <= u && p !in done
    requires ClaimedBy(c, w, claimed, done) && TakenFairly(c, w, rows, claimed, taken, p)
    requires Under(p, HomeOf(c, w, p)) !in rows
    ensures FreshId(c, Some(w(p)), c.digest(p), taken) == HomeOf(c, w, p)
  {
    var bare := Num(BandOf(c, w, p));
    HomeUnclaimed(c, w, u, p, claimed, done);
    HomesApart(c, w, u, p, p);
    BareRow(c, w, u, rows, p);
    assert bare !in taken;
    UnsaltedWhenFree(c, SeedText(c.digest(p), if w(p).Str? then w(p).s else "row"), taken);
  }

  ghost predicate AllEntriesFor(rows: seq<Row>, es: seq<Entry>, keys: seq<Row>) {
    |es| == |keys| && forall i | 0 <= i < |es| :: EntryFor(rows, es[i], keys[i])
  }

  /** Placing every content keeps the board homed: one row a content, no id twice. */
  lemma {:induction false} AssignHomed(c: Codec, w: Row -> Id, u: set<Row>, rows: seq<Row>, es: seq<Entry>,
          keys: seq<Row>, claimed: set<Id>, taken: set<Id>, done: set<Row>)
    requires World(c, w, u) && Homed(c, w, u, rows) && done <= u
    requires NoDuplicates(keys) && forall p | p in keys :: p in u && p !in done
    requires AllEntriesFor(rows, es, keys)
    requires ClaimedBy(c, w, claimed, done)
    requires forall p | p in keys :: TakenFairly(c, w, rows, claimed, taken, p)
    ensures var out := Assign(c, es, claimed, taken);
      && |out| == |keys|
      && (forall i | 0 <= i < |out| ::
          Payload(out[i]) == keys[i] && HomedRow(c, w, u, out[i]) && out[i].id.value !in claimed)
      && NoRepeatedIds(out)
  {
    if es != [] {
      var p := keys[0];
      assert p in keys;
      ChoiceIsPick(c, w, u, rows, es[0], p, claimed, taken, done);
      var id := Pick(c, w, es[0], p, claimed);
      StepInvariants(c, w, u, rows, keys, id, claimed, taken, done);
      AssignHomed(c, w, u, rows, es[1..], keys[1..], claimed + {id}, taken + {id}, done + {p});
      var rest := Assign(c, es[1..], claimed + {id}, taken + {id});
      assert Payload(Under(p, id)) == p;
      assert Assign(c, es, claimed, taken) == [Under(p, id)] + rest;
      HomedCons(c, w, u, keys, Under(p, id), rest, claimed);
    }
  }

  lemma {:induction false} HomedCons(c: Codec, w: Row -> Id, u: set<Row>, keys: seq<Row>, row: Row, rest: seq<Row>,
          claimed: set<Id>)
    requires keys != [] && Payload(row) == keys[0] && HomedRow(c, w, u, row) && row.id.value !in claimed
    requires |rest| == |keys| - 1 && NoRepeatedIds(rest)
    requires forall i | 0 <= i < |rest| ::
      Payload(rest[i]) == keys[1..][i] && HomedRow(c, w, u, rest[i]) && rest[i].id.value !in claimed + {row.id.value}
    ensures var out := [row] + rest;
      && (forall i | 0 <= i < |out| ::
          Payload(out[i]) == keys[i] && HomedRow(c, w, u, out[i]) && out[i].id.value !in claimed)
      && NoRepeatedIds(out)
  {
  }

  lemma {:induction false} StepInvariants(c: Codec, w: Row -> Id, u: set<Row>, rows: seq<Row>, keys: seq<Row>, id: Id,
          claimed: set<Id>, taken: set<Id>, done: set<Row>)
    requires keys != [] && NoDuplicates(keys) && forall p | p in keys :: p in u && p !in done && p.Obj?
    requires HomedRow(c, w, u, Under(keys[0], id)) && Payload(Under(keys[0], id)) == keys[0]
    requires ClaimedBy(c, w, claimed, done)
    requires forall p | p in keys :: TakenFairly(c, w, rows, claimed, taken, p)
    ensures ClaimedBy(c, w, claimed + {id}, done + {keys[0]})
    ensures forall p | p in keys[1..] ::
        p in keys && p !in done + {keys[0]} && TakenFairly(c, w, rows, claimed + {id}, taken + {id}, p)
    ensures NoDuplicates(keys[1..])
  {
    forall x | x in claimed + {id}
      ensures exists q :: q in done + {keys[0]} && (x == w(q) || x == HomeOf(c, w, q))
    {
      if x in claimed {
        var q :| q in done && (x == w(q) || x == HomeOf(c, w, q));
        assert q in done + {keys[0]};
      } else {
        assert keys[0] in done + {keys[0]};
      }
    }
    forall p | p in keys[1..] ensures p in keys && p != keys[0] {
      var i :| 0 <= i < |keys[1..]| && keys[1..][i] == p;
      assert keys[i + 1] == p;
    }
  }

  lemma {:induction false} InitiallyFair(c: Codec, w: Row -> Id, u: set<Row>, rows: seq<Row>, ordered: seq<Cluster>,
          p: Row)
    requires World(c, w, u) && Homed(c, w, u, rows) && RowClusters(rows, ordered) && p in u
    ensures TakenFairly(c, w, rows, {}, InitialTaken(ordered), p)
  {
    var bare := Num(BandOf(c, w, p));
    if bare in InitialTaken(ordered) {
      TakenFromRows(ordered, bare);
      var cu :| cu in ordered && RowId(cu.row) == Some(bare);
      BandIsOwn(c, w, u, cu.row, p);
    }
  }

  /** Only the content a band value was made from stands under it. */
  lemma {:induction false} BandIsOwn(c: Codec, w: Row -> Id, u: set<Row>, row: Row, p: Row)
    requires World(c, w, u) && HomedRow(c, w, u, row) && p in u
    requires row.id == Some(Num(BandOf(c, w, p)))
    ensures row == Under(p, Num(BandOf(c, w, p)))
  {
    HomesApart(c, w, u, p, Payload(row));
  }

  lemma {:induction false} ContentsAreRows(rows: seq<Row>, ordered: seq<Cluster>, p: Row)
    requires RowClusters(rows, ordered)
    ensures p in Contents(ordered) <==> exists row :: row in rows && Payload(row) == p
  {
    if p in Contents(ordered) {
      var cu :| cu in ordered && Payload(cu.row) == p;
      assert cu.row in rows;
    }
    if row :| row in rows && Payload(row) == p {
      var cu :| cu in ordered && cu.row == row;
    }
  }

  function PayloadsOf(rows: seq<Row>): (s: set<Row>)
    ensures forall p :: p in s <==> exists row :: row in rows && Payload(row) == p
  {
    var s := set i | 0 <= i < |rows| :: Payload(rows[i]);
    assert forall row | row in rows :: Payload(row) in s by {
      forall row | row in rows ensures Payload(row) in s {
        var i :| 0 <= i < |rows| && rows[i] == row;
      }
    }
    s
  }

  /** Any merge of homed boards is homed again: every content exactly once, ids unique, nothing new,
      nothing lost, whatever the base is and whatever else the boards hold. */
  lemma {:induction false} MergeHomed(c: Codec, w: Row -> Id, u: set<Row>, base: seq<Row>, ours: seq<Row>,
          theirs: seq<Row>)
    requires World(c, w, u) && Homed(c, w, u, base) && Homed(c, w, u, ours) && Homed(c, w, u, theirs)
    ensures var out := Merged(c, base, ours, theirs);
      && Homed(c, w, u, out) && NoRepeatedIds(out)
      && NoDuplicates(MapSeq(Payload, out))
      && PayloadsOf(out) == PayloadsOf(base) + PayloadsOf(ours) + PayloadsOf(theirs)
  {
    var rows := base + ours + theirs;
    var ordered := Ordered(c, Build(c, Arrivals(base, ours, theirs)));
    AreRowClusters(c, w, u, base, ours, theirs);
    var keys := Contents(ordered);
    EntriesMatch(c, w, u, rows, ordered, keys);
    SettleHomed(c, w, u, rows, ordered, keys, Logical(ordered, keys));
    PayloadsUnion(base, ours, theirs);
  }

  lemma {:induction false} SettleHomed(c: Codec, w: Row -> Id, u: set<Row>, rows: seq<Row>, ordered: seq<Cluster>,
          keys: seq<Row>, es: seq<Entry>)
    requires World(c, w, u) && Homed(c, w, u, rows) && RowClusters(rows, ordered)
    requires keys == Contents(ordered) && Matched(rows, ordered, es, keys)
    ensures var out := Assign(c, es, {}, InitialTaken(ordered));
      && Homed(c, w, u, out) && NoRepeatedIds(out)
      && NoDuplicates(MapSeq(Payload, out)) && PayloadsOf(out) == PayloadsOf(rows)
  {
    forall p ensures p in keys <==> p in PayloadsOf(rows) {
      ContentsAreRows(rows, ordered, p);
    }
    forall p | p in keys ensures p in u && TakenFairly(c, w, rows, {}, InitialTaken(ordered), p) {
      assert p in PayloadsOf(rows);
      InitiallyFair(c, w, u, rows, ordered, p);
    }
    forall i | 0 <= i < |keys| ensures EntryFor(rows, es[i], keys[i]) {
      assert GroupEntry(rows, ordered, es[i], keys[i]);
    }
    AssignHomed(c, w, u, rows, es, keys, {}, InitialTaken(ordered), {});
    var out := Assign(c, es, {}, InitialTaken(ordered));
    assert MapSeq(Payload, out) == keys;
    SameContents(out, keys);
  }

  lemma {:induction false} SameContents(out: seq<Row>, keys: seq<Row>)
    requires MapSeq(Payload, out) == keys
    ensures forall p :: p in keys <==> p in PayloadsOf(out)
    ensures forall row | row in out :: Payload(row) in keys
  {
    forall i | 0 <= i < |out| ensures Payload(out[i]) in keys {
      assert MapSeq(Payload, out)[i] in keys;
    }
    forall p | p in keys ensures p in PayloadsOf(out) {
      var i :| 0 <= i < |keys| && keys[i] == p;
      assert out[i] in out && Payload(out[i]) == p;
    }
  }

  lemma {:induction false} PayloadsUnion(a: seq<Row>, b: seq<Row>, d: seq<Row>)
    ensures PayloadsOf(a + b + d) == PayloadsOf(a) + PayloadsOf(b) + PayloadsOf(d)
  {
    forall p ensures p in PayloadsOf(a + b + d) <==> p in PayloadsOf(a) + PayloadsOf(b) + PayloadsOf(d) {
      if p in PayloadsOf(a) + PayloadsOf(b) + PayloadsOf(d) {
        var row :| (row in a || row in b || row in d) && Payload(row) == p;
        assert row in a + b + d;
      }
    }
  }
}
