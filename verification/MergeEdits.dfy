/** Edits of one row: exactly when combining its versions depends on the sides or on how often they are merged. */
module MergeEdits {
  import opened Prelude
  import opened BoardRows
  import opened MergeSpec
  import opened MergeIds
  import opened MergeLimits

  // ---------------------------------------------------------------- one row

  lemma {:induction false} OneNewSettles(c: Codec, row: Row, x: Id)
    requires RowId(row) == Some(x)
    ensures Settle(c, Ordered(c, [Cluster(row, None, None, [x])])) == [row]
  {
    assert Newcomer(row) == Cluster(row, None, None, [x]);
    OneSettled(c, Newcomer(row));
    OwnEntry(c, row, {}, InitialTaken([Newcomer(row)]));
    AssignFirst(c, Single(Newcomer(row)), [], {}, InitialTaken([Newcomer(row)]), Some(x));
    assert [Single(Newcomer(row))] + [] == [Single(Newcomer(row))] && [row] + [] == [row];
  }

  lemma {:induction false} OneBaseSettles(c: Codec, row: Row, x: Id)
    requires RowId(row) == Some(x)
    ensures Settle(c, Ordered(c, [Cluster(row, Some(0), Some(x), [x])])) == [row]
  {
    hide *;
    var cu := Cluster(row, Some(0), Some(x), [x]);
    BaseKeepsIt(c, cu, {}, InitialTaken([cu]), row, x);
    OneBaseOrdered(c, cu);
    OneShown(cu);
    SettleIs(c, [cu]);
    LogicalOne([cu], Payload(cu.row));
    SingleEntry([cu], cu);
    AssignFirst(c, Single(cu), [], {}, InitialTaken([cu]), Some(x));
    NothingLeft(c, Added({}, Some(x)), Added(InitialTaken([cu]), Some(x)));
    assert [Single(cu)] + [] == [Single(cu)] && [row] + [] == [row];
  }

  lemma {:induction false} BaseKeepsIt(c: Codec, cu: Cluster, claimed: set<Id>, taken: set<Id>, row: Row, x: Id)
    requires RowId(row) == Some(x) && cu == Cluster(row, Some(0), Some(x), [x]) && x !in claimed
    ensures Choice(c, Single(cu), claimed, taken) == Some(x) && WithId(Single(cu).row, Some(x)) == row
    ensures InBase(cu)
  {
  }

  lemma {:induction false} OneBaseOrdered(c: Codec, cu: Cluster)
    requires InBase(cu)
    ensures Ordered(c, [cu]) == [cu]
  {
    OrderedSplit(c, [cu], []);
    SortedStays(BasePosLe, [cu]);
    SortedStays(ContentLe(c), []);
    assert [cu] + [] == [cu];
  }

  lemma {:induction false} AbsorbVersion(c: Codec, cu: Cluster, row: Row, x: Id)
    requires SameRow(cu.row, row) && cu.ids == [x] && RowId(cu.row) == RowId(row) == Some(x)
    ensures Absorb(c, [cu], Arrival(row, None))
         == [cu.(row := if cu.row == row then row else MergePair(c, cu.row, row))]
  {
    assert FindHit([cu], row) == Some(0);
    hide MergePair, FindHit, SameRow;
    assert NoteRow(c, cu, Arrival(row, None)) == cu.(row := if cu.row == row then row else MergePair(c, cu.row, row));
  }

  /** Two versions under one id and an empty base. */
  lemma {:induction false} PairMerged(c: Codec, a: Row, b: Row, x: Id)
    requires RowId(a) == RowId(b) == Some(x) && SameRow(a, b)
    ensures a.Obj? && b.Obj?
    ensures Merged(c, [], [a], [b]) == [if a == b then b else MergePair(c, a, b)]
  {
    var i, j := Arrival(a, None), Arrival(b, None);
    assert Arrivals([], [a], [b]) == [] + [i] + [j];
    BuildFresh(c, [], [], i);
    assert [] + [Opened(i)] == [Cluster(a, None, None, [x])];
    BuildSnoc(c, [] + [i], j);
    AbsorbVersion(c, Cluster(a, None, None, [x]), b, x);
    PairId(c, a, b);
    OneNewSettles(c, if a == b then b else MergePair(c, a, b), x);
  }

  lemma {:induction false} PairId(c: Codec, a: Row, b: Row)
    requires a.Obj? && b.Obj? && a.id == b.id
    ensures RowId(MergePair(c, a, b)) == a.id
  {
  }

  /** Three versions under one id, the first of them the base's. */
  lemma {:induction false} ThriceMerged(c: Codec, a: Row, b: Row, d: Row, x: Id)
    requires RowId(a) == RowId(b) == RowId(d) == Some(x) && SameRow(a, b) && a != b
    requires SameRow(MergePair(c, a, b), d) && MergePair(c, a, b) != d
    ensures Merged(c, [a], [b], [d]) == [MergePair(c, MergePair(c, a, b), d)]
  {
    var i, j, k := Arrival(a, Some(0)), Arrival(b, None), Arrival(d, None);
    var u := MergePair(c, a, b);
    assert Arrivals([a], [b], [d]) == [] + [i] + [j] + [k];
    PairId(c, a, b);
    PairId(c, u, d);
    hide MergePair, SameRow, Build;
    BuildFresh(c, [], [], i);
    assert [] + [Opened(i)] == [Cluster(a, Some(0), Some(x), [x])];
    BuildSnoc(c, [] + [i], j);
    AbsorbVersion(c, Cluster(a, Some(0), Some(x), [x]), b, x);
    BuildSnoc(c, [] + [i] + [j], k);
    AbsorbVersion(c, Cluster(u, Some(0), Some(x), [x]), d, x);
    OneBaseSettles(c, MergePair(c, u, d), x);
  }

  // ---------------------------------------------------------------- a version that comes in again

  predicate SharedEqual(f: Fields, g: Fields) {
    forall k | k in f && k in g :: f[k] == g[k]
  }

  lemma {:induction false} WinnerOverlays(c: Codec, o: Row, t: Row)
    requires o.Obj? && t.Obj? && o.id == t.id && Wins(c, o, t)
    ensures MergePair(c, o, t) == Overlay(t, o) == Obj(o.id, t.fields + o.fields)
  {
  }

  /** Combining a union with one of its own parts once more. */
  lemma {:induction false} PartAgain(c: Codec, u: Row, o: Row, t: Row)
    requires o.Obj? && t.Obj? && o.id == t.id && u == Obj(o.id, t.fields + o.fields)
    ensures MergePair(c, u, o) == u
    ensures MergePair(c, u, t) == if Wins(c, u, t) then u else Obj(o.id, u.fields + t.fields)
  {
    assert o.fields + u.fields == u.fields && u.fields + o.fields == u.fields && t.fields + u.fields == u.fields;
  }

  lemma {:induction false} SharedFieldsDecide(o: Row, t: Row)
    requires o.Obj? && t.Obj?
    ensures t.fields + o.fields + t.fields == t.fields + o.fields <==> SharedEqual(o.fields, t.fields)
  {
    var u := t.fields + o.fields;
    if u + t.fields == u {
      forall k | k in o.fields && k in t.fields ensures o.fields[k] == t.fields[k] {
        assert (u + t.fields)[k] == u[k];
      }
    }
    if SharedEqual(o.fields, t.fields) {
      assert forall k | k in t.fields :: u[k] == t.fields[k];
      assert u + t.fields == u;
    }
  }

  lemma {:induction false} UnionSame(o: Row, t: Row)
    requires SameRow(o, t) && o.Obj? && t.Obj? && o.id == t.id && o.id.Some?
    ensures var u := Obj(o.id, t.fields + o.fields); SameRow(u, o) && SameRow(u, t)
  {
  }

  /** IDEMPOTENT, exactly, for two versions of one row: the version that won can always be merged in again, the one that
      lost exactly when the union still wins against it or both agree on every field they share. The union's canonical
      text is not its winner's, so with equal stamps it may lose to the very version its winner beat. */
  lemma {:induction false} VersionAgainExactly(c: Codec, o: Row, t: Row, x: Id)
    requires RowId(o) == RowId(t) == Some(x) && SameRow(o, t) && o != t && Wins(c, o, t)
    ensures o.Obj? && t.Obj?
    ensures var m := Merged(c, [], [o], [t]);
      && m == [MergePair(c, o, t)] && Merged(c, [], m, [o]) == m
      && (Merged(c, [], m, [t]) == m <==> Wins(c, MergePair(c, o, t), t) || SharedEqual(o.fields, t.fields))
  {
    var u := Obj(o.id, t.fields + o.fields);
    WinnerOverlays(c, o, t);
    PartAgain(c, u, o, t);
    SharedFieldsDecide(o, t);
    UnionSame(o, t);
    hide Merged, MergePair, Wins, SameRow, SharedEqual;
    PairMerged(c, o, t, x);
    PairMerged(c, u, o, x);
    PairMerged(c, u, t, x);
    UnionIsPart(o, t);
  }

  lemma {:induction false} UnionIsPart(o: Row, t: Row)
    requires o.Obj? && t.Obj?
    ensures t.fields + o.fields == t.fields ==> SharedEqual(o.fields, t.fields)
  {
    if t.fields + o.fields == t.fields {
      forall k | k in o.fields && k in t.fields ensures o.fields[k] == t.fields[k] {
        assert (t.fields + o.fields)[k] == t.fields[k];
      }
    }
  }

  // ---------------------------------------------------------------- three versions

  /** The first of the timestamp keys that says anything is the `n`th. */
  predicate StampedBy(f: Fields, n: nat) {
    && n < |TIMESTAMP_KEYS| && TIMESTAMP_KEYS[n] in f && f[TIMESTAMP_KEYS[n]].truthy
    && forall i | 0 <= i < n :: TIMESTAMP_KEYS[i] in f ==> !f[TIMESTAMP_KEYS[i]].truthy
  }

  lemma {:induction false} StampIsAt(f: Fields, keys: seq<string>, n: nat)
    requires n < |keys| && keys[n] in f && f[keys[n]].truthy
    requires forall i | 0 <= i < n :: keys[i] in f ==> !f[keys[i]].truthy
    ensures StampFrom(f, keys) == f[keys[n]].text
  {
    if n > 0 {
      StampIsAt(f, keys[1..], n - 1);
    }
  }

  /** An overlay of rows stamped by one key is stamped by it too, with the newer row's stamp. */
  lemma {:induction false} OverlayStamp(older: Row, newer: Row, n: nat)
    requires older.Obj? && newer.Obj? && StampedBy(older.fields, n) && StampedBy(newer.fields, n)
    ensures StampedBy(Overlay(older, newer).fields, n) && Stamp(Overlay(older, newer)) == Stamp(newer)
  {
    StampIsAt(newer.fields, TIMESTAMP_KEYS, n);
    OverlayStamped(older.fields, newer.fields, TIMESTAMP_KEYS, n);
    StampIsAt(older.fields + newer.fields, TIMESTAMP_KEYS, n);
  }

  lemma {:induction false} OverlayStamped(f: Fields, g: Fields, keys: seq<string>, n: nat)
    requires n < |keys| && keys[n] in g && g[keys[n]].truthy
    requires forall i | 0 <= i < n :: keys[i] in f ==> !f[keys[i]].truthy
    requires forall i | 0 <= i < n :: keys[i] in g ==> !g[keys[i]].truthy
    ensures keys[n] in f + g && (f + g)[keys[n]] == g[keys[n]]
    ensures forall i | 0 <= i < n :: keys[i] in f + g ==> !(f + g)[keys[i]].truthy
  {
  }

  predicate Earlier(a: Row, b: Row) {
    !StrLe(Stamp(b), Stamp(a))
  }

  /** Three versions of one row under one id, each stamped later than the one before by the same key. */
  ghost predicate Rising(e: Row, b: Row, l: Row, x: Id, n: nat) {
    && RowId(e) == RowId(b) == RowId(l) == Some(x) && SameRow(e, b) && SameRow(e, l) && SameRow(b, l)
    && StampedBy(e.fields, n) && StampedBy(b.fields, n) && StampedBy(l.fields, n)
    && Earlier(e, b) && Earlier(b, l)
  }

  lemma {:induction false} LaterWins(c: Codec, a: Row, b: Row)
    requires a.Obj? && b.Obj? && Earlier(a, b)
    ensures MergePair(c, a, b) == Overlay(a, b) && MergePair(c, b, a) == Overlay(a, b) && a != b
  {
    StrLeTotal(Stamp(a), Stamp(b));
  }

  lemma {:induction false} EarlierTransitive(a: Row, b: Row, d: Row)
    requires Earlier(a, b) && Earlier(b, d)
    ensures Earlier(a, d)
  {
    StrLeTotal(Stamp(a), Stamp(b));
    if StrLe(Stamp(d), Stamp(a)) {
      StrLeTransitive(Stamp(d), Stamp(a), Stamp(b));
    }
  }

  lemma {:induction false} OverlaySame(a: Row, b: Row, d: Row)
    requires a.Obj? && b.Obj? && d.Obj? && a.id == b.id == d.id && a.id.Some?
    requires SameRow(a, d) && SameRow(b, d)
    ensures SameRow(Overlay(a, b), d) && RowId(Overlay(a, b)) == a.id
  {
  }

  /** The middle version arriving last lands under the overlay of the other two. */
  lemma {:induction false} MiddleLast(c: Codec, e: Row, b: Row, l: Row, x: Id, n: nat)
    requires Rising(e, b, l, x, n)
    ensures e.Obj? && b.Obj? && l.Obj?
    ensures Merged(c, [e], [l], [b]) == [Overlay(b, Overlay(e, l))]
  {
    var u := Overlay(e, l);
    EarlierTransitive(e, b, l);
    LaterWins(c, e, l);
    OverlayStamp(e, l, n);
    assert Earlier(b, u);
    LaterWins(c, b, u);
    OverlaySame(e, l, b);
    SameRowSwaps(b, l);
    hide Merged, MergePair, SameRow, Overlay;
    ThriceMerged(c, e, l, b, x);
  }

  /** In the order of their stamps each version lands on the ones before. */
  lemma {:induction false} LatestLast(c: Codec, e: Row, b: Row, l: Row, x: Id, n: nat)
    requires Rising(e, b, l, x, n)
    ensures e.Obj? && b.Obj? && l.Obj?
    ensures Merged(c, [e], [b], [l]) == [Overlay(Overlay(e, b), l)]
  {
    var v := Overlay(e, b);
    LaterWins(c, e, b);
    OverlayStamp(e, b, n);
    assert Earlier(v, l);
    LaterWins(c, v, l);
    OverlaySame(e, b, l);
    hide Merged, MergePair, SameRow, Overlay;
    ThriceMerged(c, e, b, l, x);
  }

  /** What `e` and `b` both say and `l` does not, they say alike. */
  predicate OlderAgree(e: Fields, b: Fields, l: Fields) {
    forall k | k in e && k in b && k !in l :: e[k] == b[k]
  }

  lemma {:induction false} OverlaysAgree(e: Fields, b: Fields, l: Fields)
    ensures b + (e + l) == e + b + l <==> OlderAgree(e, b, l)
  {
    if b + (e + l) == e + b + l {
      forall k | k in e && k in b && k !in l ensures e[k] == b[k] {
        assert (b + (e + l))[k] == (e + b + l)[k];
      }
    }
    if OlderAgree(e, b, l) {
      forall k | k in e + b + l ensures (b + (e + l))[k] == (e + b + l)[k] {
      }
      assert (b + (e + l)).Keys == (e + b + l).Keys;
    }
  }

  /** ORDER INDEPENDENCE of three versions, exactly: with the oldest in the base and the other two on the two sides,
      swapping the sides gives the same row if and only if the older two agree on every field both carry and the newest
      lacks. The overlay is by whole row, so a field of the oldest can come back over the middle one's. */
  lemma {:induction false} EditsOrderExactly(c: Codec, e: Row, b: Row, l: Row, x: Id, n: nat)
    requires Rising(e, b, l, x, n)
    ensures e.Obj? && b.Obj? && l.Obj?
    ensures Merged(c, [e], [l], [b]) == Merged(c, [e], [b], [l]) <==> OlderAgree(e.fields, b.fields, l.fields)
  {
    MiddleLast(c, e, b, l, x, n);
    LatestLast(c, e, b, l, x, n);
    OverlaysAgree(e.fields, b.fields, l.fields);
    OverlayFields(e, b, l);
    hide *;
    OneRowBoards(Overlay(b, Overlay(e, l)), Overlay(Overlay(e, b), l));
  }

  lemma {:induction false} OverlayFields(e: Row, b: Row, l: Row)
    requires e.Obj? && b.Obj? && l.Obj?
    ensures RowId(e) == RowId(b) == RowId(l) ==>
      (Overlay(b, Overlay(e, l)) == Overlay(Overlay(e, b), l)
       <==> b.fields + (e.fields + l.fields) == e.fields + b.fields + l.fields)
  {
  }

  lemma {:induction false} OneRowBoards(a: Row, b: Row)
    ensures [a] == [b] <==> a == b
  {
    assert [a][0] == a && [b][0] == b;
  }
}
