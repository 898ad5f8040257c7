/** Where new rows stand in the result, said of stamps and texts alone, and what follows for colliding rows and for
    versions of one row. */
module MergeOrder {
  import opened Prelude
  import opened BoardRows
  import opened IdSpace
  import opened MergeSpec
  import opened MergeLossless
  import opened MergeIds
  import opened MergeSymmetry
  import opened MergeTies
  import opened MergePrefixed
  import opened MergeLimits
  import opened MergeBase
  import opened MergeHolders
  import opened MergeAgain
  import MergeEdits

  // ---------------------------------------------------------------- contents in order

  /** Some base row shows this content, in the version the merge gives it. */
  ghost predicate BaseShows(cl: seq<Cluster>, p: Row) {
    exists cu :: cu in cl && InBase(cu) && Payload(cu.row) == p
  }

  lemma {:induction false} OrderMeans(c: Codec, a: Row, b: Row)
    requires OrderLe(c, a, b)
    ensures StrLe(Stamp(a), Stamp(b))
    ensures Stamp(a) == Stamp(b) ==> StrLe(c.canon(Payload(a)), c.canon(Payload(b)))
  {
    StrLeTotal(Stamp(a), Stamp(b));
  }

  lemma {:induction false} OrderOfPayloads(c: Codec, a: Row, b: Row)
    requires OrderLe(c, a, b)
    ensures OrderLe(c, Payload(a), Payload(b))
  {
    StampOfPayload(a);
    StampOfPayload(b);
  }

  lemma {:induction false} Parts(c: Codec, cl: seq<Cluster>) returns (front: seq<Cluster>, back: seq<Cluster>)
    ensures Ordered(c, cl) == front + back && SortedBy(ContentLe(c), back)
    ensures forall cu | cu in front :: cu in cl && InBase(cu)
  {
    front, back := SortBy(BasePosLe, Filter(InBase, cl)), SortBy(ContentLe(c), Filter(IsNew, cl));
    SortPermutes(BasePosLe, Filter(InBase, cl));
    ContentLeTotal(c);
    SortSorts(ContentLe(c), Filter(IsNew, cl));
  }

  /** The place where a content that no base row shows first appears is among the new rows. */
  lemma {:induction false} NewPlace(cl: seq<Cluster>, front: seq<Cluster>, back: seq<Cluster>, i: nat)
    requires i < |front + back| && forall cu | cu in front :: cu in cl && InBase(cu)
    requires !BaseShows(cl, Payload((front + back)[i].row))
    ensures |front| <= i && (front + back)[i] == back[i - |front|]
  {
    FrontShown(cl, front, back, i);
  }

  lemma {:induction false} FrontShown(cl: seq<Cluster>, front: seq<Cluster>, back: seq<Cluster>, i: nat)
    requires i < |front + back| && forall cu | cu in front :: cu in cl && InBase(cu)
    ensures i < |front| ==> BaseShows(cl, Payload((front + back)[i].row))
  {
    if i < |front| {
      assert (front + back)[i] == front[i] && front[i] in front;
    }
  }

  lemma {:induction false} ContentsAre(s: seq<Cluster>)
    ensures Contents(s) == Distinct(MapSeq(PayloadOf, s))
  {
  }

  lemma {:induction false} PayAt(s: seq<Cluster>, i: nat)
    requires i < |s|
    ensures MapSeq(PayloadOf, s)[i] == Payload(s[i].row)
  {
  }

  lemma {:induction false} SortedPair(c: Codec, s: seq<Cluster>, i: nat, j: nat)
    requires SortedBy(ContentLe(c), s) && i < j < |s|
    ensures OrderLe(c, s[i].row, s[j].row)
  {
    hide OrderLe;
    assert ContentLe(c)(s[i], s[j]);
  }

  /** Contents that no base row shows stand in the order of their rows. */
  lemma {:induction false} ContentsInOrder(c: Codec, cl: seq<Cluster>, m: nat, n: nat)
    requires m < n < |Contents(Ordered(c, cl))|
    requires !BaseShows(cl, Contents(Ordered(c, cl))[m]) && !BaseShows(cl, Contents(Ordered(c, cl))[n])
    ensures OrderLe(c, Contents(Ordered(c, cl))[m], Contents(Ordered(c, cl))[n])
  {
    hide *;
    var front, back := Parts(c, cl);
    var s, pays := front + back, MapSeq(PayloadOf, front + back);
    ContentsAre(s);
    DistinctInOrder(pays, m, n);
    var i, j := FirstIn(pays, Distinct(pays)[m]), FirstIn(pays, Distinct(pays)[n]);
    PayAt(s, i);
    PayAt(s, j);
    NewPlace(cl, front, back, i);
    NewPlace(cl, front, back, j);
    SortedPair(c, back, i - |front|, j - |front|);
    OrderOfPayloads(c, s[i].row, s[j].row);
  }

  // ---------------------------------------------------------------- rows in order

  lemma {:induction false} GroupsInOrder(ordered: seq<Cluster>, keys: seq<Row>, r: nat, s: nat) returns (m: nat, n: nat)
    requires r < s < |Logical(ordered, keys)|
    ensures m <= n < |keys| && Payload(Logical(ordered, keys)[r].row) == keys[m]
    ensures Payload(Logical(ordered, keys)[s].row) == keys[n]
  {
    hide *;
    var i, j;
    m, i := EntryPlace(ordered, keys, r);
    n, j := EntryPlace(ordered, keys, s);
    EntryShows(ordered, keys[m], i);
    EntryShows(ordered, keys[n], j);
    if n < m {
      OffsetGrows(ordered, keys, n, m);
    }
  }

  lemma {:induction false} ResultContents(c: Codec, base: seq<Row>, ours: seq<Row>, theirs: seq<Row>, r: nat)
    requires r < |Merged(c, base, ours, theirs)|
    ensures var es := Logical(Ordered(c, Build(c, Arrivals(base, ours, theirs))),
                              Contents(Ordered(c, Build(c, Arrivals(base, ours, theirs)))));
      r < |es| && Payload(Merged(c, base, ours, theirs)[r]) == Payload(es[r].row)
  {
    hide *;
    var ordered := Ordered(c, Build(c, Arrivals(base, ours, theirs)));
    MergedIs(c, base, ours, theirs);
    SettleIs(c, ordered);
    AssignContents(c, Logical(ordered, Contents(ordered)), {}, InitialTaken(ordered), r);
  }

  lemma {:induction false} SamePlace(c: Codec, p: Row)
    ensures OrderLe(c, p, p)
  {
    OrderLeTotal(c, p, p);
  }

  /** ORDER of new rows: of two result rows whose contents no base row shows, the one with the earlier stamp is first,
      and of equal stamps the one whose content has the lesser text. */
  lemma {:induction false} NewRowsInOrder(c: Codec, base: seq<Row>, ours: seq<Row>, theirs: seq<Row>, i: nat, j: nat)
    requires i < j < |Merged(c, base, ours, theirs)|
    requires var cl, out := Build(c, Arrivals(base, ours, theirs)), Merged(c, base, ours, theirs);
      !BaseShows(cl, Payload(out[i])) && !BaseShows(cl, Payload(out[j]))
    ensures var out := Merged(c, base, ours, theirs);
      && StrLe(Stamp(out[i]), Stamp(out[j]))
      && (Stamp(out[i]) == Stamp(out[j]) ==> StrLe(c.canon(Payload(out[i])), c.canon(Payload(out[j]))))
  {
    hide *;
    var cl, out := Build(c, Arrivals(base, ours, theirs)), Merged(c, base, ours, theirs);
    var ordered := Ordered(c, cl);
    ResultContents(c, base, ours, theirs, i);
    ResultContents(c, base, ours, theirs, j);
    var m, n := GroupsInOrder(ordered, Contents(ordered), i, j);
    if m == n {
      SamePlace(c, Payload(out[i]));
    } else {
      ContentsInOrder(c, cl, m, n);
    }
    OrderMeans(c, Payload(out[i]), Payload(out[j]));
    StampOfPayload(out[i]);
    StampOfPayload(out[j]);
    TwicePayload(out[i]);
    TwicePayload(out[j]);
  }

  lemma {:induction false} TwicePayload(row: Row)
    ensures Payload(Payload(row)) == Payload(row)
  {
  }

  // ---------------------------------------------------------------- boards extended by appends

  /** No side brings another version of a base row. */
  ghost predicate Unedited(base: seq<Row>, side: seq<Row>) {
    forall b, s | b in base && s in side && SameRow(b, s) :: s == b
  }

  lemma {:induction false} UneditedStep(c: Codec, cl: seq<Cluster>, base: seq<Row>, s: Row)
    requires |base| <= |cl| && forall i | 0 <= i < |base| :: cl[i].row == base[i]
    requires forall b | b in base && SameRow(b, s) :: s == b
    ensures forall i | 0 <= i < |base| :: Absorb(c, cl, Arrival(s, None))[i].row == base[i]
  {
    var hit := FindHit(cl, s);
    if hit.Some? && hit.value < |base| {
      assert base[hit.value] in base && cl[hit.value].row == s;
    }
    hide SameRow, MergePair, FindHit;
  }

  lemma {:induction false} BuildUnedited(c: Codec, base: seq<Row>, side: seq<Row>)
    requires ApartRows(base) && Unedited(base, side)
    ensures |base| <= |Build(c, BaseArrivals(base) + SideArrivals(side))|
    ensures forall i | 0 <= i < |base| :: Build(c, BaseArrivals(base) + SideArrivals(side))[i].row == base[i]
  {
    BuildSide(c, base, side);
    hide *;
    if side == [] {
      NoSide(base);
      BuildBase(c, base);
    } else {
      var front, last := side[..|side| - 1], side[|side| - 1];
      LastSplit(side);
      FrontUnedited(base, front, last);
      BuildUnedited(c, base, front);
      LastSide(c, base, front, last);
      UneditedStep(c, Build(c, BaseArrivals(base) + SideArrivals(front)), base, last);
    }
  }

  lemma {:induction false} NoSide(base: seq<Row>)
    ensures BaseArrivals(base) + SideArrivals([]) == BaseArrivals(base)
  {
  }

  lemma {:induction false} FrontUnedited(base: seq<Row>, front: seq<Row>, last: Row)
    requires Unedited(base, front + [last])
    ensures Unedited(base, front) && forall b | b in base && SameRow(b, last) :: last == b
  {
    hide SameRow;
    assert last in front + [last] && forall s | s in front :: s in front + [last];
  }

  lemma {:induction false} LastSide(c: Codec, base: seq<Row>, front: seq<Row>, last: Row)
    ensures Build(c, BaseArrivals(base) + SideArrivals(front + [last]))
         == Absorb(c, Build(c, BaseArrivals(base) + SideArrivals(front)), Arrival(last, None))
    ensures |Build(c, BaseArrivals(base) + SideArrivals(front))|
         <= |Build(c, BaseArrivals(base) + SideArrivals(front + [last]))|
  {
    var arrivals := BaseArrivals(base) + SideArrivals(front);
    assert BaseArrivals(base) + SideArrivals(front + [last]) == arrivals + [Arrival(last, None)];
    BuildSnoc(c, arrivals, Arrival(last, None));
  }

  lemma {:induction false} BaseShowsItsOwn(c: Codec, base: seq<Row>, ours: seq<Row>, theirs: seq<Row>, p: Row)
    requires ApartRows(base) && Unedited(base, ours + theirs)
    requires BaseShows(Build(c, Arrivals(base, ours, theirs)), p)
    ensures exists b :: b in base && Payload(b) == p
  {
    hide *;
    var cl := Build(c, Arrivals(base, ours, theirs));
    SidesJoined(base, ours, theirs);
    BuildUnedited(c, base, ours + theirs);
    BuildSide(c, base, ours + theirs);
    ShownIn(cl, base, p);
  }

  lemma {:induction false} SidesJoined(base: seq<Row>, ours: seq<Row>, theirs: seq<Row>)
    ensures Arrivals(base, ours, theirs) == BaseArrivals(base) + SideArrivals(ours + theirs)
  {
  }

  lemma {:induction false} ShownIn(cl: seq<Cluster>, base: seq<Row>, p: Row)
    requires BaseInPlace(cl, base) && BaseShows(cl, p)
    requires |base| <= |cl| && forall i | 0 <= i < |base| :: cl[i].row == base[i]
    ensures exists b :: b in base && Payload(b) == p
  {
    hide StandsFor, Payload;
    var cu :| cu in cl && InBase(cu) && Payload(cu.row) == p;
    var i :| 0 <= i < |cl| && cl[i] == cu;
    assert base[i] in base;
  }

  /** On boards extended by appends the rows of new contents are sorted by stamp, then by text. */
  lemma {:induction false} AppendsInOrder(c: Codec, base: seq<Row>, ours: seq<Row>, theirs: seq<Row>, i: nat, j: nat)
    requires ApartRows(base) && Unedited(base, ours + theirs) && i < j < |Merged(c, base, ours, theirs)|
    requires var out := Merged(c, base, ours, theirs);
      forall b | b in base :: Payload(b) != Payload(out[i]) && Payload(b) != Payload(out[j])
    ensures var out := Merged(c, base, ours, theirs);
      && StrLe(Stamp(out[i]), Stamp(out[j]))
      && (Stamp(out[i]) == Stamp(out[j]) ==> StrLe(c.canon(Payload(out[i])), c.canon(Payload(out[j]))))
  {
    hide *;
    var cl, out := Build(c, Arrivals(base, ours, theirs)), Merged(c, base, ours, theirs);
    if BaseShows(cl, Payload(out[i])) {
      BaseShowsItsOwn(c, base, ours, theirs, Payload(out[i]));
    }
    if BaseShows(cl, Payload(out[j])) {
      BaseShowsItsOwn(c, base, ours, theirs, Payload(out[j]));
    }
    NewRowsInOrder(c, base, ours, theirs, i, j);
  }

  // ---------------------------------------------------------------- who keeps a disputed id

  /** The earlier of two stamps. */
  ghost predicate Before(a: Row, b: Row) {
    StrLe(Stamp(a), Stamp(b)) && Stamp(a) != Stamp(b)
  }

  lemma {:induction false} BeforeOrders(c: Codec, a: Row, b: Row)
    requires Before(a, b)
    ensures OrderLe(c, a, b) && !OrderLe(c, b, a) && Wins(c, b, a) && !Wins(c, a, b)
  {
    if StrLe(Stamp(b), Stamp(a)) {
      StrLeAntisymmetric(Stamp(a), Stamp(b));
    }
  }

  lemma {:induction false} DisputedSwaps(a: Row, b: Row, x: Id)
    requires Disputed(a, b, x)
    ensures Disputed(b, a, x) && a.Obj? && b.Obj?
  {
  }

  /** The number in the band that a content hashes to, as an id of the shape of `x`; a text without a number gets six
      digits of the hash behind a tilde. */
  function ContentId(c: Codec, x: Id, hash: string): Id
    requires |hash| >= 6
  {
    var n := 1_000_000_000_000_000 + c.head(hash) % 1_000_000_000_000;
    match x
    case Num(_) => Num(n)
    case Str(s) => if HasTail(s) then Str(s[..TailStart(s)] + DecimalText(n)) else Str(s + "~" + hash[..6])
  }

  /** No id below the band is the number a content hashes to. */
  lemma {:induction false} BandValueFree(c: Codec, x: Id, hash: string)
    requires !IsDerived(x)
    ensures Num(BandValue(c, hash, 0)) !in {x}
  {
    hide *;
    BandValueDerived(c, hash);
  }

  lemma {:induction false} BandValueDerived(c: Codec, hash: string)
    ensures IsDerived(Num(BandValue(c, hash, 0)))
  {
    NumberDerived(BandValue(c, hash, 0));
    hide IsDerived;
  }

  lemma {:induction false} ResolvedNumber(c: Codec, x: Id, p: Row)
    requires Numeric(x) && !IsDerived(x) && |c.digest(p)| >= 6
    ensures Resolved(c, x, p) == ContentId(c, x, c.digest(p))
  {
    hide IsDerived, DecimalValue, TailStart, DerivedId, DecimalText;
    BandValueFree(c, x, c.digest(p));
    UnsaltedWhenFree(c, c.digest(p), {x});
  }

  lemma {:induction false} ResolvedText(c: Codec, x: Id, p: Row)
    requires !Numeric(x) && |c.digest(p)| >= 6
    ensures Resolved(c, x, p) == ContentId(c, x, c.digest(p))
  {
    FirstSuffixFree(x.s, c.digest(p));
    hide TailStart, SuffixedId;
  }

  lemma {:induction false} ResolvedIs(c: Codec, x: Id, p: Row)
    requires !IsDerived(x) && |c.digest(p)| >= 6
    ensures Resolved(c, x, p) == ContentId(c, x, c.digest(p))
  {
    hide *;
    if Numeric(x) {
      ResolvedNumber(c, x, p);
    } else {
      ResolvedText(c, x, p);
    }
  }

  /** WHO KEEPS THE ID: of two rows that collide on one, whichever side they come from, the one with the earlier stamp
      comes first and keeps it, and the other is numbered by its content. */
  lemma {:induction false} EarlierKeeps(c: Codec, a: Row, b: Row, x: Id)
    requires Disputed(a, b, x) && !IsDerived(x) && Before(a, b) && |c.digest(Payload(b))| >= 6
    ensures b.Obj?
    ensures Merged(c, [], [a], [b]) == Merged(c, [], [b], [a])
         == [a, b.(id := Some(ContentId(c, x, c.digest(Payload(b)))))]
  {
    hide *;
    BeforeOrders(c, a, b);
    DisputedSwaps(a, b, x);
    EmittedFirst(c, a, b);
    CollisionMerged(c, a, b, x, a, b);
    CollisionMerged(c, b, a, x, a, b);
    ResolvedIs(c, x, Payload(b));
  }

  lemma {:induction false} EmittedFirst(c: Codec, a: Row, b: Row)
    requires OrderLe(c, a, b) && !OrderLe(c, b, a)
    ensures Emitted(c, a, b, a, b) && Emitted(c, b, a, a, b)
  {
  }

  /** On any board: of the rows seen under one id that no base row shows, none is stamped before the row that has it. */
  lemma {:induction false} EarliestKeeps(c: Codec, base: seq<Row>, ours: seq<Row>, theirs: seq<Row>, r: nat, x: Id,
          s: nat)
    requires NumericBoard(base + ours + theirs) && !IsDerived(x)
    requires var ordered := Ordered(c, Build(c, Arrivals(base, ours, theirs)));
      var es := Logical(ordered, Contents(ordered));
      FirstCarrier(es, r, x) && s < |es| && s != r && x in es[s].ids
    requires var cl, out := Build(c, Arrivals(base, ours, theirs)), Merged(c, base, ours, theirs);
      r < |out| && s < |out| && !BaseShows(cl, Payload(out[r])) && !BaseShows(cl, Payload(out[s]))
    ensures var out := Merged(c, base, ours, theirs);
      RowId(out[r]) == Some(x) && RowId(out[s]) != Some(x) && StrLe(Stamp(out[r]), Stamp(out[s]))
  {
    FirstCarrierKeeps(c, base, ours, theirs, r, x);
    NewRowsInOrder(c, base, ours, theirs, r, s);
  }

  // ---------------------------------------------------------------- which version wins

  /** WHICH VERSION WINS: of two versions of one row, whichever side they come from, every field comes from the one with
      the later stamp that has it; between equal stamps, from the one with the greater text. */
  lemma {:induction false} NewerVersionWins(c: Codec, a: Row, b: Row, x: Id)
    requires RowId(a) == RowId(b) == Some(x) && SameRow(a, b)
    requires Before(a, b)
          || (Stamp(a) == Stamp(b) && StrLe(c.canon(a), c.canon(b)) && c.canon(a) != c.canon(b))
    ensures a.Obj? && b.Obj?
    ensures Merged(c, [], [a], [b]) == Merged(c, [], [b], [a]) == [Obj(Some(x), a.fields + b.fields)]
  {
    hide *;
    VersionsApart(c, a, b, x);
    SameRowSwaps(a, b);
    MergeEdits.PairMerged(c, a, b, x);
    MergeEdits.PairMerged(c, b, a, x);
    LaterOver(c, a, b);
  }

  lemma {:induction false} VersionsApart(c: Codec, a: Row, b: Row, x: Id)
    requires RowId(a) == RowId(b) == Some(x)
    requires Before(a, b) || (Stamp(a) == Stamp(b) && StrLe(c.canon(a), c.canon(b)) && c.canon(a) != c.canon(b))
    ensures a.Obj? && b.Obj? && b.id == Some(x) && a != b && StrLe(Stamp(a), Stamp(b))
    ensures Stamp(a) == Stamp(b) ==> StrLe(c.canon(a), c.canon(b)) && c.canon(a) != c.canon(b)
  {
    StrLeTotal(Stamp(a), Stamp(b));
    hide StrLe, Stamp;
  }
}
