/** Boards of prefixed ids on which the merge repeats an id, and exactly when: one family for each clause of
    `BandsClear`. */
module MergeRepeats {
  import opened Prelude
  import opened BoardRows
  import opened IdSpace
  import opened MergeSpec
  import opened MergeIds
  import opened MergeCanonical
  import opened MergeLimits
  import opened MergeLosers

  // ---------------------------------------------------------------- three new rows in order

  lemma {:induction false} ThreeApart(x: Cluster, y: Cluster, z: Cluster)
    requires Payload(x.row) != Payload(y.row) && Payload(x.row) != Payload(z.row) && Payload(y.row) != Payload(z.row)
    ensures NoDuplicates(MapSeq(PayloadOf, [x, y, z]))
  {
    hide Payload;
  }

  lemma {:induction false} ThreeSingles(x: Cluster, y: Cluster, z: Cluster)
    ensures MapSeq(Single, [x, y, z]) == [Single(x), Single(y), Single(z)]
  {
    hide Single;
  }

  lemma {:induction false} ThreeEntries(x: Cluster, y: Cluster, z: Cluster)
    requires Payload(x.row) != Payload(y.row) && Payload(x.row) != Payload(z.row) && Payload(y.row) != Payload(z.row)
    ensures Logical([x, y, z], Contents([x, y, z])) == [Single(x), Single(y), Single(z)]
  {
    hide *;
    ThreeApart(x, y, z);
    ApartEntries([x, y, z]);
    ThreeSingles(x, y, z);
  }

  /** Newly arrived rows of three contents, in emission order, settle entry by entry. */
  lemma {:induction false} ThreeSettle(c: Codec, a: Row, b: Row, d: Row)
    requires RowId(a).Some? && RowId(b).Some? && RowId(d).Some?
    requires !SameRow(a, b) && !SameRow(a, d) && !SameRow(b, d)
    requires Payload(a) != Payload(b) && Payload(a) != Payload(d) && Payload(b) != Payload(d)
    requires OrderLe(c, a, b) && OrderLe(c, b, d)
    ensures var s := [Newcomer(a), Newcomer(b), Newcomer(d)];
      Merged(c, [], [a, b], [d]) == Assign(c, [Single(s[0]), Single(s[1]), Single(s[2])], {}, InitialTaken(s))
  {
    var x, y, z := Arrival(a, None), Arrival(b, None), Arrival(d, None);
    BuildThree(c, x, y, z);
    assert Arrivals([], [a, b], [d]) == [x, y, z];
    ThreeInOrder(c, Newcomer(a), Newcomer(b), Newcomer(d));
    ThreeEntries(Newcomer(a), Newcomer(b), Newcomer(d));
  }

  // ---------------------------------------------------------------- who loses, among a few

  /** An entry that meets neither a brother on its id nor one renumbered to it keeps it. */
  lemma {:induction false} NobodyAhead(c: Codec, es: seq<Entry>, t: nat)
    requires t < |es| && forall s | 0 <= s < t :: RowId(es[s].row) != RowId(es[t].row) && !LandsOn(c, es, s, t)
    ensures !Loses(c, es, t)
  {
  }

  lemma {:induction false} BrotherAhead(c: Codec, es: seq<Entry>, s: nat, t: nat)
    requires s < t < |es| && RowId(es[t].row).Some? && RowId(es[s].row) == RowId(es[t].row)
    ensures Loses(c, es, t)
  {
  }

  /** A home is never an id below the band. */
  lemma {:induction false} HomeIsDerived(c: Codec, s: string, p: Row)
    requires HasTail(s)
    ensures IsDerived(Home(c, Str(s), p))
  {
    HomeText(c, Str(s), p);
  }

  /** An entry under an id below the band is no loser's home. */
  lemma {:induction false} NotAHome(c: Codec, es: seq<Entry>, s: nat, t: nat)
    requires s < t < |es| && !Loses(c, es, s) && RowId(es[s].row).Some? && !IsDerived(RowId(es[s].row).value)
    requires RowId(es[t].row).Some? && Tailed(RowId(es[t].row).value)
    ensures !Clash(c, es, s, t)
  {
    HomeIsDerived(c, RowId(es[t].row).value.s, Payload(es[t].row));
    hide Loses, IsDerived, Home;
  }

  lemma {:induction false} KeeperLands(c: Codec, es: seq<Entry>, s: nat, t: nat)
    requires s < t < |es| && !Loses(c, es, s)
    ensures !LandsOn(c, es, s, t)
  {
  }

  /** Nobody is renumbered to an id below the band. */
  lemma {:induction false} LandsHigh(c: Codec, es: seq<Entry>, s: nat, t: nat)
    requires s < t < |es| && RowId(es[s].row).Some? && Tailed(RowId(es[s].row).value)
    requires RowId(es[t].row).Some? && !IsDerived(RowId(es[t].row).value)
    ensures !LandsOn(c, es, s, t)
  {
    HomeIsDerived(c, RowId(es[s].row).value.s, Payload(es[s].row));
    hide IsDerived, Loses, Home;
  }

  /** Two losers meet, where the first arrived under an id below the band, exactly at one home. */
  lemma {:induction false} LosersMeet(c: Codec, es: seq<Entry>, s: nat, t: nat, x: string, y: string)
    requires s < t < |es| && Loses(c, es, s) && Loses(c, es, t) && !IsDerived(Str(x)) && HasTail(y)
    requires RowId(es[s].row) == Some(Str(x)) && RowId(es[t].row) == Some(Str(y))
    ensures Clash(c, es, s, t) <==> Home(c, Str(x), Payload(es[s].row)) == Home(c, Str(y), Payload(es[t].row))
  {
    HomeIsDerived(c, y, Payload(es[t].row));
    hide Loses, IsDerived, Home;
  }

  /** A keeper is met, exactly at its own id. */
  lemma {:induction false} KeeperMet(c: Codec, es: seq<Entry>, s: nat, t: nat, y: string)
    requires s < t < |es| && !Loses(c, es, s) && Loses(c, es, t) && RowId(es[t].row) == Some(Str(y))
    ensures Clash(c, es, s, t) <==> RowId(es[s].row) == Some(Home(c, Str(y), Payload(es[t].row)))
  {
    hide Loses, Home;
  }

  lemma {:induction false} KeeperClashes(c: Codec, es: seq<Entry>, s: nat, t: nat)
    requires s < t < |es| && !Loses(c, es, t)
    ensures !Clash(c, es, s, t)
  {
    hide Loses;
  }

  lemma {:induction false} TailedText(t: string)
    requires HasTail(t)
    ensures Tailed(Str(t))
  {
  }

  lemma {:induction false} TextedRow(row: Row, t: string)
    requires RowId(row) == Some(Str(t))
    ensures Texted(Single(Newcomer(row))) && Single(Newcomer(row)).row == row
  {
    NewcomerListed(row);
  }

  /** Three entries of text ids, the losers among them under one that ends in a number. */
  lemma {:induction false} ThreeRepeat(c: Codec, a: Row, b: Row, d: Row, r: string, s: string, t: string)
    requires RowId(a) == Some(Str(r)) && RowId(b) == Some(Str(s)) && RowId(d) == Some(Str(t)) && HasTail(t)
    requires !SameRow(a, b) && !SameRow(a, d) && !SameRow(b, d)
    requires Payload(a) != Payload(b) && Payload(a) != Payload(d) && Payload(b) != Payload(d)
    requires OrderLe(c, a, b) && OrderLe(c, b, d)
    requires r == s == t || r != s
    ensures var es := [Single(Newcomer(a)), Single(Newcomer(b)), Single(Newcomer(d))];
      NoRepeatedIds(Merged(c, [], [a, b], [d])) <==> forall u: nat, v: nat | u < v < 3 :: !Clash(c, es, u, v)
  {
    hide *;
    var es := [Single(Newcomer(a)), Single(Newcomer(b)), Single(Newcomer(d))];
    var ordered := [Newcomer(a), Newcomer(b), Newcomer(d)];
    SomeIds(a, b, d, r, s, t);
    ThreeSettle(c, a, b, d);
    ThreeText(c, a, b, d, r, s, t);
    RepeatsExactly(c, es, InitialTaken(ordered));
  }

  lemma {:induction false} SomeIds(a: Row, b: Row, d: Row, r: string, s: string, t: string)
    requires RowId(a) == Some(Str(r)) && RowId(b) == Some(Str(s)) && RowId(d) == Some(Str(t))
    ensures RowId(a).Some? && RowId(b).Some? && RowId(d).Some?
  {
  }

  lemma {:induction false} ThreeText(c: Codec, a: Row, b: Row, d: Row, r: string, s: string, t: string)
    requires RowId(a) == Some(Str(r)) && RowId(b) == Some(Str(s)) && RowId(d) == Some(Str(t)) && HasTail(t)
    requires r == s == t || r != s
    ensures TextBoard(c, [Single(Newcomer(a)), Single(Newcomer(b)), Single(Newcomer(d))])
    ensures TextsOnly(InitialTaken([Newcomer(a), Newcomer(b), Newcomer(d)]))
  {
    hide *;
    var es := [Single(Newcomer(a)), Single(Newcomer(b)), Single(Newcomer(d))];
    ThreeTaken(a, b, d, r, s, t);
    TextedRow(a, r);
    TextedRow(b, s);
    TextedRow(d, t);
    TailedText(t);
    NobodyAhead(c, es, 0);
    KeeperLands(c, es, 0, 1);
    if r != s {
      NobodyAhead(c, es, 1);
    }
    TextBoardIs(c, es);
  }

  lemma {:induction false} ThreeTaken(a: Row, b: Row, d: Row, r: string, s: string, t: string)
    requires RowId(a) == Some(Str(r)) && RowId(b) == Some(Str(s)) && RowId(d) == Some(Str(t))
    ensures TextsOnly(InitialTaken([Newcomer(a), Newcomer(b), Newcomer(d)]))
  {
    TakenTexts([Newcomer(a), Newcomer(b), Newcomer(d)]);
  }

  lemma {:induction false} TextBoardIs(c: Codec, es: seq<Entry>)
    requires forall t | 0 <= t < |es| :: Texted(es[t])
    requires forall t | 0 <= t < |es| && Loses(c, es, t) :: RowId(es[t].row).Some? && Tailed(RowId(es[t].row).value)
    ensures TextBoard(c, es)
  {
    hide Texted, Loses, Tailed;
  }

  // ---------------------------------------------------------------- the families

  /** HELD BY ANOTHER ROW, whatever the hashes: two rows collide on a prefixed id while a third stands between them
      under another text. The allocator asks for the bare number only, so the loser is given the third row's id,
      exactly when that is its home: say because the third row was once renumbered to it and edited since. */
  lemma {:induction false} RenumberedOntoHeldId(c: Codec, a: Row, q: Row, b: Row, t: string, r: string)
    requires RowId(a) == RowId(b) == Some(Str(t)) && HasTail(t) && !IsDerived(Str(t))
    requires !AgreeOnIdentity(a.fields, b.fields)
    requires RowId(q) == Some(Str(r)) && r != t && Payload(q) != Payload(a) && Payload(q) != Payload(b)
    requires OrderLe(c, a, q) && OrderLe(c, q, b)
    ensures NoRepeatedIds(Merged(c, [], [a, q], [b])) <==> Str(r) != Home(c, Str(t), Payload(b))
  {
    hide *;
    HeldRows(a, q, b, t, r);
    ThreeRepeat(c, a, q, b, t, r, t);
    HeldClash(c, a, q, b, t, r);
  }

  lemma {:induction false} HeldRows(a: Row, q: Row, b: Row, t: string, r: string)
    requires RowId(a) == RowId(b) == Some(Str(t)) && RowId(q) == Some(Str(r)) && r != t
    requires !AgreeOnIdentity(a.fields, b.fields)
    ensures !SameRow(a, q) && !SameRow(a, b) && !SameRow(q, b) && Payload(a) != Payload(b)
  {
    DifferentContents(a, b);
  }

  lemma {:induction false} HeldClash(c: Codec, a: Row, q: Row, b: Row, t: string, r: string)
    requires RowId(a) == RowId(b) == Some(Str(t)) && HasTail(t) && !IsDerived(Str(t))
    requires RowId(q) == Some(Str(r)) && r != t
    ensures var es := [Single(Newcomer(a)), Single(Newcomer(q)), Single(Newcomer(b))];
      (forall u: nat, v: nat | u < v < 3 :: !Clash(c, es, u, v)) <==> Str(r) != Home(c, Str(t), Payload(b))
  {
    hide *;
    var es := [Single(Newcomer(a)), Single(Newcomer(q)), Single(Newcomer(b))];
    TextedRow(a, t);
    TextedRow(q, r);
    TextedRow(b, t);
    TailedText(t);
    NobodyAhead(c, es, 0);
    KeeperLands(c, es, 0, 1);
    NobodyAhead(c, es, 1);
    BrotherAhead(c, es, 0, 2);
    KeeperClashes(c, es, 0, 1);
    NotAHome(c, es, 0, 2);
    KeeperMet(c, es, 1, 2, t);
  }

  /** EQUAL BAND VALUES: of three rows under one prefixed id the two that lose it come out under one id, exactly when
      their hashes land on one band value. */
  lemma {:induction false} EqualBandsRepeat(c: Codec, a: Row, b: Row, d: Row, t: string)
    requires RowId(a) == RowId(b) == RowId(d) == Some(Str(t)) && HasTail(t) && !IsDerived(Str(t))
    requires !AgreeOnIdentity(a.fields, b.fields) && !AgreeOnIdentity(a.fields, d.fields)
    requires !AgreeOnIdentity(b.fields, d.fields)
    requires OrderLe(c, a, b) && OrderLe(c, b, d)
    ensures NoRepeatedIds(Merged(c, [], [a, b], [d])) <==> Band(c, Str(t), Payload(b)) != Band(c, Str(t), Payload(d))
  {
    hide *;
    EqualRows(a, b, d, t);
    ThreeRepeat(c, a, b, d, t, t, t);
    EqualClash(c, a, b, d, t);
    OneHome(c, t, Payload(b), Payload(d));
  }

  lemma {:induction false} EqualRows(a: Row, b: Row, d: Row, t: string)
    requires RowId(a) == RowId(b) == RowId(d) == Some(Str(t))
    requires !AgreeOnIdentity(a.fields, b.fields) && !AgreeOnIdentity(a.fields, d.fields)
    requires !AgreeOnIdentity(b.fields, d.fields)
    ensures !SameRow(a, b) && !SameRow(a, d) && !SameRow(b, d)
    ensures Payload(a) != Payload(b) && Payload(a) != Payload(d) && Payload(b) != Payload(d)
  {
    DifferentContents(a, b);
    DifferentContents(a, d);
    DifferentContents(b, d);
  }

  lemma {:induction false} OneHome(c: Codec, t: string, p: Row, q: Row)
    requires HasTail(t)
    ensures Home(c, Str(t), p) == Home(c, Str(t), q) <==> Band(c, Str(t), p) == Band(c, Str(t), q)
  {
    HomeText(c, Str(t), p);
    HomeText(c, Str(t), q);
  }

  lemma {:induction false} EqualClash(c: Codec, a: Row, b: Row, d: Row, t: string)
    requires RowId(a) == RowId(b) == RowId(d) == Some(Str(t)) && HasTail(t) && !IsDerived(Str(t))
    ensures var es := [Single(Newcomer(a)), Single(Newcomer(b)), Single(Newcomer(d))];
      (forall u: nat, v: nat | u < v < 3 :: !Clash(c, es, u, v))
      <==> Home(c, Str(t), Payload(b)) != Home(c, Str(t), Payload(d))
  {
    hide *;
    var es := [Single(Newcomer(a)), Single(Newcomer(b)), Single(Newcomer(d))];
    TextedRow(a, t);
    TextedRow(b, t);
    TextedRow(d, t);
    TailedText(t);
    NobodyAhead(c, es, 0);
    BrotherAhead(c, es, 0, 1);
    BrotherAhead(c, es, 0, 2);
    NotAHome(c, es, 0, 1);
    NotAHome(c, es, 0, 2);
    LosersMeet(c, es, 1, 2, t, t);
  }

  // ---------------------------------------------------------------- lookalikes that lose together

  /** The lookalikes `x`, `y`, `z` of one content collide with `q` and `r` on two of their three ids. */
  ghost predicate Colliding(q: Row, r: Row, x: Row, y: Row, z: Row, s: string, t: string, v: string) {
    && RowId(q) == RowId(x) == Some(Str(s)) && RowId(r) == RowId(y) == Some(Str(t)) && RowId(z) == Some(Str(v))
    && s != t && s != v && t != v && Payload(x) == Payload(y) == Payload(z) && Payload(q) != Payload(r)
    && !AgreeOnIdentity(q.fields, x.fields) && !AgreeOnIdentity(r.fields, y.fields)
  }

  lemma {:induction false} CollidingApart(q: Row, r: Row, x: Row, y: Row, z: Row, s: string, t: string, v: string)
    requires Colliding(q, r, x, y, z, s, t, v)
    ensures !SameRow(q, r) && !SameRow(q, x) && !SameRow(q, y) && !SameRow(q, z)
    ensures !SameRow(r, x) && !SameRow(r, y) && !SameRow(r, z) && !SameRow(x, y) && !SameRow(x, z) && !SameRow(y, z)
    ensures Payload(q) != Payload(x) && Payload(r) != Payload(x)
  {
    DifferentContents(q, x);
    DifferentContents(r, y);
    hide *;
    ApartTexts(q, r, s, t);
    ApartTexts(q, y, s, t);
    ApartTexts(q, z, s, v);
    ApartTexts(r, x, t, s);
    ApartTexts(r, z, t, v);
    ApartTexts(x, y, s, t);
    ApartTexts(x, z, s, v);
    ApartTexts(y, z, t, v);
  }

  lemma {:induction false} ApartTexts(a: Row, b: Row, s: string, t: string)
    requires RowId(a) == Some(Str(s)) && RowId(b) == Some(Str(t)) && s != t
    ensures !SameRow(a, b)
  {
  }

  lemma {:induction false} CollidingBuild(c: Codec, q: Row, r: Row, x: Row, y: Row, z: Row, s: string, t: string,
          v: string)
    requires Colliding(q, r, x, y, z, s, t, v)
    ensures Build(c, Arrivals([q, r], [x, y], [z]))
        == [OfBase(q, 0), OfBase(r, 1), Newcomer(x), Newcomer(y), Newcomer(z)]
  {
    CollidingApart(q, r, x, y, z, s, t, v);
    CollidingIds(q, r, x, y, z, s, t, v);
    hide *;
    var i, j, k, l, m := Arrival(q, Some(0)), Arrival(r, Some(1)), Arrival(x, None), Arrival(y, None), Arrival(z, None);
    BuildThree(c, i, j, k);
    BuildFour(c, i, j, k, l);
    BuildFresh(c, [i, j, k] + [l], [Opened(i), Opened(j), Opened(k), Opened(l)], m);
    FiveArrivals(q, r, x, y, z);
  }

  lemma {:induction false} BuildFour(c: Codec, i: Arrival, j: Arrival, k: Arrival, l: Arrival)
    requires Build(c, [i, j, k]) == [Opened(i), Opened(j), Opened(k)] && RowId(l.row).Some?
    requires Opened(i).row == i.row && Opened(j).row == j.row && Opened(k).row == k.row
    requires !SameRow(i.row, l.row) && !SameRow(j.row, l.row) && !SameRow(k.row, l.row)
    ensures Build(c, [i, j, k] + [l]) == [Opened(i), Opened(j), Opened(k), Opened(l)]
  {
    hide Build, SameRow, Opened;
    BuildFresh(c, [i, j, k], [Opened(i), Opened(j), Opened(k)], l);
  }

  lemma {:induction false} CollidingIds(q: Row, r: Row, x: Row, y: Row, z: Row, s: string, t: string, v: string)
    requires Colliding(q, r, x, y, z, s, t, v)
    ensures forall row | row in {q, r, x, y, z} :: row.Obj? && row.id.Some? && RowId(row).Some?
    ensures forall a: Arrival :: Opened(a).row == a.row
  {
  }

  lemma {:induction false} FiveArrivals(q: Row, r: Row, x: Row, y: Row, z: Row)
    ensures Arrivals([q, r], [x, y], [z])
         == [Arrival(q, Some(0)), Arrival(r, Some(1)), Arrival(x, None)] + [Arrival(y, None)] + [Arrival(z, None)]
    ensures [Opened(Arrival(q, Some(0))), Opened(Arrival(r, Some(1))), Opened(Arrival(x, None)),
        Opened(Arrival(y, None))]
            + [Opened(Arrival(z, None))] == [OfBase(q, 0), OfBase(r, 1), Newcomer(x), Newcomer(y), Newcomer(z)]
  {
  }

  lemma {:induction false} CollidingOrder(c: Codec, front: seq<Cluster>, x: Cluster, y: Cluster, z: Cluster)
    requires |front| == 2 && front[0].basePos == Some(0) && front[1].basePos == Some(1)
    requires IsNew(x) && IsNew(y) && IsNew(z) && Payload(x.row) == Payload(y.row) == Payload(z.row)
    ensures Ordered(c, front + [x, y, z]) == front + [x, y, z]
  {
    SameContentLe(c, x.row, y.row);
    SameContentLe(c, x.row, z.row);
    SameContentLe(c, y.row, z.row);
    ThreeSorted(c, x, y, z);
    hide OrderLe, SortBy, Ordered;
    OrderedSplit(c, front, [x, y, z]);
    SortedStays(BasePosLe, front);
    SortedStays(ContentLe(c), [x, y, z]);
  }

  lemma {:induction false} TwoAndThreeContents(q: Cluster, r: Cluster, x: Cluster, y: Cluster, z: Cluster)
    requires Payload(x.row) == Payload(y.row) == Payload(z.row)
    requires Payload(q.row) != Payload(r.row) && Payload(q.row) != Payload(x.row) && Payload(r.row) != Payload(x.row)
    ensures Contents([q, r] + [x, y, z]) == [Payload(q.row), Payload(r.row)] + [Payload(x.row)]
  {
    var a, b, p := Payload(q.row), Payload(r.row), Payload(x.row);
    var three := [a, b] + [p];
    assert MapSeq(PayloadOf, [q, r] + [x, y, z]) == three + [p] + [p];
    DistinctStays(three);
    DistinctSnoc(three, p);
    DistinctSnoc(three + [p], p);
  }

  lemma {:induction false} TwoAndThreeGroups(q: Cluster, r: Cluster, x: Cluster, y: Cluster, z: Cluster)
    requires Payload(x.row) == Payload(y.row) == Payload(z.row)
    requires Payload(q.row) != Payload(r.row) && Payload(q.row) != Payload(x.row) && Payload(r.row) != Payload(x.row)
    ensures Group([q, r] + [x, y, z], Payload(q.row)) == [q] && Group([q, r] + [x, y, z], Payload(r.row)) == [r]
    ensures Group([q, r] + [x, y, z], Payload(x.row)) == [x, y, z]
  {
    var s := [q, r] + [x, y, z];
    hide Payload, Filter;
    AloneInGroup(s, 0);
    AloneInGroup(s, 1);
    FilterSplit(PaysAs(Payload(x.row)), [x, y, z], [q, r]);
  }

  /** One of the lookalikes has an id nobody disputes, so they stay apart. */
  lemma {:induction false} CollidingEntries(q: Cluster, r: Cluster, x: Cluster, y: Cluster, z: Cluster, s: Id, t: Id,
          v: Id)
    requires Payload(x.row) == Payload(y.row) == Payload(z.row)
    requires Payload(q.row) != Payload(r.row) && Payload(q.row) != Payload(x.row) && Payload(r.row) != Payload(x.row)
    requires ClusterIds(q) == [s] && ClusterIds(r) == [t] && ClusterIds(x) == [s] && ClusterIds(y) == [t]
    requires ClusterIds(z) == [v]
    requires s != v && t != v && !IsDerived(s) && !IsDerived(t) && !IsDerived(v)
    ensures var ordered := [q, r] + [x, y, z];
      Logical(ordered, Contents(ordered)) == [Single(q), Single(r), Single(x), Single(y), Single(z)]
  {
    hide *;
    var ordered := [q, r] + [x, y, z];
    TwoAndThreeContents(q, r, x, y, z);
    TwoAndThreeGroups(q, r, x, y, z);
    ThirdUndisputed(q, r, x, y, z, s, t, v);
    ThreeSingles(x, y, z);
    SingleEntry(ordered, q);
    SingleEntry(ordered, r);
    LogicalSnoc(ordered, [Payload(q.row), Payload(r.row)], Payload(x.row));
    TwoKeyed(ordered, Payload(q.row), Payload(r.row), q, r);
    assert [Single(q), Single(r)] + [Single(x), Single(y), Single(z)]
        == [Single(q), Single(r), Single(x), Single(y), Single(z)];
  }

  lemma {:induction false} TwoKeyed(ordered: seq<Cluster>, a: Row, b: Row, q: Cluster, r: Cluster)
    requires EntriesOf(ordered, Group(ordered, a)) == [Single(q)]
    requires EntriesOf(ordered, Group(ordered, b)) == [Single(r)]
    ensures Logical(ordered, [a, b]) == [Single(q), Single(r)]
  {
    LogicalOne(ordered, a);
    LogicalSnoc(ordered, [a], b);
    assert [a] + [b] == [a, b];
  }

  lemma {:induction false} ThirdUndisputed(q: Cluster, r: Cluster, x: Cluster, y: Cluster, z: Cluster, s: Id, t: Id,
          v: Id)
    requires ClusterIds(q) == [s] && ClusterIds(r) == [t] && ClusterIds(x) == [s] && ClusterIds(y) == [t]
    requires ClusterIds(z) == [v]
    requires s != v && t != v && !IsDerived(s) && !IsDerived(t) && !IsDerived(v)
    ensures EntriesOf([q, r] + [x, y, z], [x, y, z]) == MapSeq(Single, [x, y, z])
  {
    hide *;
    LastCarries(q, r, x, y, z, s, t, v);
    UndisputedApart([q, r] + [x, y, z], [x, y, z], v);
  }

  lemma {:induction false} LastCarries(q: Cluster, r: Cluster, x: Cluster, y: Cluster, z: Cluster, s: Id, t: Id, v: Id)
    requires ClusterIds(q) == [s] && ClusterIds(r) == [t] && ClusterIds(x) == [s] && ClusterIds(y) == [t]
    requires ClusterIds(z) == [v]
    requires s != v && t != v && !IsDerived(s) && !IsDerived(t) && !IsDerived(v)
    ensures exists cu :: cu in [x, y, z] && v in ClusterIds(cu)
    ensures !Contested([q, r] + [x, y, z], v)
    ensures forall cu, id | cu in [x, y, z] && id in ClusterIds(cu) :: !IsDerived(id)
  {
    hide ClusterIds, IsDerived, Contested;
    var g := [x, y, z];
    assert g[2] in g && v in ClusterIds(g[2]);
    forall cu | cu in [q, r] + g ensures v in ClusterIds(cu) ==> cu == z {
      assert cu == q || cu == r || cu == x || cu == y || cu == z;
    }
    OnlyOneCarries([q, r] + g, z, v);
  }

  lemma {:induction false} OnlyOneCarries(ordered: seq<Cluster>, z: Cluster, v: Id)
    requires forall cu | cu in ordered :: v in ClusterIds(cu) ==> cu == z
    ensures !Contested(ordered, v)
  {
  }

  /** One content gets one home under two ids, exactly when these have one prefix. */
  lemma {:induction false} HomesAlike(c: Codec, s: string, t: string, p: Row)
    requires c.digest(p) != ""
    ensures Home(c, Str(s), p) == Home(c, Str(t), p) <==> s[..TailStart(s)] == t[..TailStart(t)]
  {
    var n := DecimalText(Band(c, Str(s), p));
    assert Band(c, Str(s), p) == Band(c, Str(t), p);
    SamePrefix(s[..TailStart(s)], t[..TailStart(t)], n);
  }

  lemma {:induction false} SamePrefix(a: string, b: string, n: string)
    ensures a + n == b + n <==> a == b
  {
    if a + n == b + n {
      assert |a| == |b|;
      assert (a + n)[..|a|] == a && (b + n)[..|b|] == b;
    }
  }

  lemma {:induction false} CollidingTaken(q: Row, r: Row, x: Row, y: Row, z: Row, s: string, t: string, v: string)
    requires Colliding(q, r, x, y, z, s, t, v)
    ensures TextsOnly(InitialTaken([OfBase(q, 0), OfBase(r, 1)] + [Newcomer(x), Newcomer(y), Newcomer(z)]))
    ensures ClusterIds(OfBase(q, 0)) == [Str(s)] && ClusterIds(OfBase(r, 1)) == [Str(t)]
    ensures ClusterIds(Newcomer(x)) == [Str(s)] && ClusterIds(Newcomer(y)) == [Str(t)]
    ensures ClusterIds(Newcomer(z)) == [Str(v)]
  {
    TakenTexts([OfBase(q, 0), OfBase(r, 1)] + [Newcomer(x), Newcomer(y), Newcomer(z)]);
    OfBaseIds(q, 0);
    OfBaseIds(r, 1);
    NewcomerIds(x);
    NewcomerIds(y);
    NewcomerIds(z);
  }

  /** The five entries in order of emission, each under its own id. */
  ghost predicate Five(es: seq<Entry>, s: string, t: string, v: string) {
    && |es| == 5 && RowId(es[0].row) == RowId(es[2].row) == Some(Str(s)) && RowId(es[4].row) == Some(Str(v))
    && RowId(es[1].row) == RowId(es[3].row) == Some(Str(t)) && s != t && s != v && t != v
  }

  lemma {:induction false} CollidingFive(q: Row, r: Row, x: Row, y: Row, z: Row, s: string, t: string, v: string,
          es: seq<Entry>)
    requires RowId(q) == RowId(x) == Some(Str(s)) && RowId(r) == RowId(y) == Some(Str(t)) && RowId(z) == Some(Str(v))
    requires s != t && s != v && t != v
    requires es == [Single(OfBase(q, 0)), Single(OfBase(r, 1)), Single(Newcomer(x)), Single(Newcomer(y)),
                    Single(Newcomer(z))]
    ensures Five(es, s, t, v) && es[2].row == x && es[3].row == y
    ensures forall k | 0 <= k < 5 :: Texted(es[k])
  {
    hide *;
    TextedBase(q, s, 0);
    TextedBase(r, t, 1);
    TextedRow(x, s);
    TextedRow(y, t);
    TextedRow(z, v);
    FiveAreIn(es, s, t, v);
  }

  lemma {:induction false} FiveAreIn(es: seq<Entry>, s: string, t: string, v: string)
    requires |es| == 5 && RowId(es[0].row) == RowId(es[2].row) == Some(Str(s)) && RowId(es[4].row) == Some(Str(v))
    requires RowId(es[1].row) == RowId(es[3].row) == Some(Str(t)) && s != t && s != v && t != v
    ensures Five(es, s, t, v)
  {
  }

  lemma {:induction false} CollidingTexts(q: Row, r: Row, x: Row, y: Row, z: Row, s: string, t: string, v: string)
    requires Colliding(q, r, x, y, z, s, t, v)
    ensures RowId(q) == RowId(x) == Some(Str(s)) && RowId(r) == RowId(y) == Some(Str(t)) && RowId(z) == Some(Str(v))
    ensures s != t && s != v && t != v && Payload(x) == Payload(y)
  {
  }

  lemma {:induction false} TextedBase(row: Row, t: string, pos: nat)
    requires RowId(row) == Some(Str(t))
    ensures Texted(Single(OfBase(row, pos))) && Single(OfBase(row, pos)).row == row
  {
    OfBaseIds(row, pos);
  }

  /** The two lookalikes on disputed ids lose them, and nobody else does. */
  lemma {:induction false} FiveLose(c: Codec, es: seq<Entry>, s: string, t: string, v: string)
    requires Five(es, s, t, v) && Tailed(Str(s)) && Tailed(Str(t))
    requires !IsDerived(Str(s)) && !IsDerived(Str(t)) && !IsDerived(Str(v))
    ensures !Loses(c, es, 0) && !Loses(c, es, 1) && Loses(c, es, 2) && Loses(c, es, 3) && !Loses(c, es, 4)
  {
    hide Loses, LandsOn, IsDerived, Tailed, RowId, HomeAt;
    NobodyAhead(c, es, 0);
    KeeperLands(c, es, 0, 1);
    NobodyAhead(c, es, 1);
    BrotherAhead(c, es, 0, 2);
    BrotherAhead(c, es, 1, 3);
    LandsHigh(c, es, 0, 4);
    LandsHigh(c, es, 1, 4);
    LandsHigh(c, es, 2, 4);
    LandsHigh(c, es, 3, 4);
    NobodyAhead(c, es, 4);
  }

  lemma {:induction false} FiveText(c: Codec, es: seq<Entry>, s: string, t: string, v: string)
    requires Five(es, s, t, v) && Tailed(Str(s)) && Tailed(Str(t))
    requires !IsDerived(Str(s)) && !IsDerived(Str(t)) && !IsDerived(Str(v))
    requires forall k | 0 <= k < 5 :: Texted(es[k])
    ensures TextBoard(c, es)
  {
    FiveLose(c, es, s, t, v);
    hide Loses, Texted, IsDerived, Tailed;
    TextBoardIs(c, es);
  }

  lemma {:induction false} FiveClash(c: Codec, es: seq<Entry>, s: string, t: string, v: string)
    requires Five(es, s, t, v) && Tailed(Str(s)) && Tailed(Str(t)) && HasTail(t)
    requires !IsDerived(Str(s)) && !IsDerived(Str(t)) && !IsDerived(Str(v))
    ensures (forall i: nat, j: nat | i < j < 5 :: !Clash(c, es, i, j))
       <==> Home(c, Str(s), Payload(es[2].row)) != Home(c, Str(t), Payload(es[3].row))
  {
    hide Loses, LandsOn, IsDerived, Tailed, RowId, HomeAt, Clash, Home, Payload, HasTail;
    FiveLose(c, es, s, t, v);
    forall i: nat, j: nat | i < j < 5 && (j == 1 || j == 4) ensures !Clash(c, es, i, j) {
      KeeperClashes(c, es, i, j);
    }
    NotAHome(c, es, 0, 2);
    NotAHome(c, es, 1, 2);
    NotAHome(c, es, 0, 3);
    NotAHome(c, es, 1, 3);
    LosersMeet(c, es, 2, 3, s, t);
  }

  lemma {:induction false} CollidingMerged(c: Codec, q: Row, r: Row, x: Row, y: Row, z: Row, s: string, t: string,
          v: string, front: seq<Cluster>, cx: Cluster, cy: Cluster, cz: Cluster)
    requires Colliding(q, r, x, y, z, s, t, v) && front == [OfBase(q, 0), OfBase(r, 1)]
    requires cx == Newcomer(x) && cy == Newcomer(y) && cz == Newcomer(z)
    ensures Merged(c, [q, r], [x, y], [z]) == Settle(c, front + [cx, cy, cz])
  {
    CollidingFacts(q, r, x, y, z, s, t, v);
    hide *;
    CollidingBuild(c, q, r, x, y, z, s, t, v);
    FiveAre(front, cx, cy, cz);
    CollidingOrder(c, front, cx, cy, cz);
    MergedIs(c, [q, r], [x, y], [z]);
  }

  lemma {:induction false} FiveAre(front: seq<Cluster>, x: Cluster, y: Cluster, z: Cluster)
    requires |front| == 2
    ensures front + [x, y, z] == [front[0], front[1], x, y, z]
  {
  }

  lemma {:induction false} CollidingSettled(c: Codec, q: Cluster, r: Cluster, x: Cluster, y: Cluster, z: Cluster,
          s: string, t: string, v: string)
    requires Payload(x.row) == Payload(y.row) == Payload(z.row)
    requires Payload(q.row) != Payload(r.row) && Payload(q.row) != Payload(x.row) && Payload(r.row) != Payload(x.row)
    requires ClusterIds(q) == [Str(s)] && ClusterIds(r) == [Str(t)]
    requires ClusterIds(x) == [Str(s)] && ClusterIds(y) == [Str(t)] && ClusterIds(z) == [Str(v)]
    requires TextsOnly(InitialTaken([q, r] + [x, y, z])) && s != t && s != v && t != v && HasTail(s) && HasTail(t)
    requires !IsDerived(Str(s)) && !IsDerived(Str(t)) && !IsDerived(Str(v))
    requires var es := [Single(q), Single(r), Single(x), Single(y), Single(z)];
      && Five(es, s, t, v) && (forall k | 0 <= k < 5 :: Texted(es[k]))
      && Payload(es[2].row) == Payload(x.row) && Payload(es[3].row) == Payload(x.row)
    ensures NoRepeatedIds(Settle(c, [q, r] + [x, y, z]))
       <==> Home(c, Str(s), Payload(x.row)) != Home(c, Str(t), Payload(x.row))
  {
    hide *;
    var es := [Single(q), Single(r), Single(x), Single(y), Single(z)];
    CollidingEntries(q, r, x, y, z, Str(s), Str(t), Str(v));
    SettleIs(c, [q, r] + [x, y, z]);
    TailedText(s);
    TailedText(t);
    FiveText(c, es, s, t, v);
    FiveClash(c, es, s, t, v);
    RepeatsExactly(c, es, InitialTaken([q, r] + [x, y, z]));
  }

  /** LOOKALIKES: three rows of one content stay apart because one of their ids is undisputed; the two whose ids are
      held by others are renumbered by content, and so to one id exactly when their ids have one prefix. */
  lemma {:induction false} LookalikesRepeat(c: Codec, q: Row, r: Row, x: Row, y: Row, z: Row, s: string, t: string,
          v: string)
    requires Colliding(q, r, x, y, z, s, t, v) && c.digest(Payload(x)) != "" && HasTail(s) && HasTail(t)
    requires !IsDerived(Str(s)) && !IsDerived(Str(t)) && !IsDerived(Str(v))
    ensures NoRepeatedIds(Merged(c, [q, r], [x, y], [z])) <==> s[..TailStart(s)] != t[..TailStart(t)]
  {
    CollidingFacts(q, r, x, y, z, s, t, v);
    hide *;
    var i, j, k, l, m := OfBase(q, 0), OfBase(r, 1), Newcomer(x), Newcomer(y), Newcomer(z);
    CollidingTaken(q, r, x, y, z, s, t, v);
    CollidingMerged(c, q, r, x, y, z, s, t, v, [i, j], k, l, m);
    CollidingTexts(q, r, x, y, z, s, t, v);
    CollidingFive(q, r, x, y, z, s, t, v, [Single(i), Single(j), Single(k), Single(l), Single(m)]);
    CollidingSettled(c, i, j, k, l, m, s, t, v);
    HomesAlike(c, s, t, Payload(x));
  }

  lemma {:induction false} CollidingFacts(q: Row, r: Row, x: Row, y: Row, z: Row, s: string, t: string, v: string)
    requires Colliding(q, r, x, y, z, s, t, v)
    ensures Payload(x) == Payload(y) == Payload(z) && Payload(q) != Payload(r) && Payload(q) != Payload(x)
    ensures Payload(r) != Payload(x)
    ensures s != t && s != v && t != v
    ensures OfBase(q, 0).row == q && OfBase(r, 1).row == r && Newcomer(x).row == x && Newcomer(y).row == y
    ensures Newcomer(z).row == z
    ensures OfBase(q, 0).basePos == Some(0) && OfBase(r, 1).basePos == Some(1)
    ensures IsNew(Newcomer(x)) && IsNew(Newcomer(y)) && IsNew(Newcomer(z))
  {
    DifferentContents(q, x);
    DifferentContents(r, y);
  }
}
