/** Who keeps an id that several rows carry: the one whose content is emitted first. */
module MergeHolders {
  import opened Prelude
  import opened BoardRows
  import opened IdSpace
  import opened MergeSpec
  import opened MergeLossless
  import opened MergeIds
  import opened MergeTies
  import opened MergePrefixed
  import opened MergeLimits
  import opened MergeBase
  import MergeStable

  // ---------------------------------------------------------------- the first carrier

  /** Entry `r` carries `x`, as its base id or as its only one, and no entry before it carries `x`. */
  ghost predicate FirstCarrier(es: seq<Entry>, r: nat, x: Id) {
    r < |es| && Claims(es[r], x) && forall s | 0 <= s < r :: x !in es[s].ids
  }

  ghost predicate Claims(e: Entry, x: Id) {
    x in e.ids && (e.ids == [x] || e.baseId == Some(x))
  }

  /** What a board's entries satisfy: the base id is among the ids, a bare value has none, and a renumbering starts from
      a number or a prefixed number. */
  ghost predicate SoundEntry(e: Entry) {
    && (e.baseId.Some? ==> e.baseId.value in e.ids) && (e.row.Bare? ==> e.ids == [])
    && (Like(e).Some? ==> Numeric(Like(e).value))
  }

  ghost predicate SoundEntries(es: seq<Entry>) {
    forall e | e in es :: SoundEntry(e)
  }

  lemma {:induction false} OthersDecline(c: Codec, e: Entry, claimed: set<Id>, taken: set<Id>, x: Id)
    requires SoundEntry(e) && x !in e.ids && !IsDerived(x)
    ensures Choice(c, e, claimed, taken) != Some(x)
    ensures RowId(WithId(e.row, Choice(c, e, claimed, taken))) != Some(x)
  {
    ChoiceNot(c, e, claimed, taken, x);
    hide Choice, IsDerived, Numeric;
  }

  lemma {:induction false} FirstTakes(c: Codec, e: Entry, claimed: set<Id>, taken: set<Id>, x: Id)
    requires SoundEntry(e) && Claims(e, x) && x !in claimed
    ensures Choice(c, e, claimed, taken) == Some(x) && RowId(WithId(e.row, Some(x))) == Some(x)
  {
    if e.baseId != Some(x) {
      OneCandidate(e, claimed, x);
    }
  }

  /** Before the first carrier nobody gets the id, and the first carrier does. */
  lemma {:induction false} UpToFirst(c: Codec, es: seq<Entry>, claimed: set<Id>, taken: set<Id>, r: nat, x: Id, s: nat)
    requires SoundEntries(es) && FirstCarrier(es, r, x) && !IsDerived(x) && x !in claimed && s <= r
    ensures RowId(Assign(c, es, claimed, taken)[s]) == Some(x) <==> s == r
  {
    hide *;
    SoundHead(es, r, x);
    if r == 0 {
      FirstTakes(c, es[0], claimed, taken, x);
      AssignHead(c, es, claimed, taken);
    } else {
      OthersDecline(c, es[0], claimed, taken, x);
      AssignHead(c, es, claimed, taken);
      if s > 0 {
        var id := Choice(c, es[0], claimed, taken);
        AssignTail(c, es, claimed, taken, s);
        NotAdded(claimed, id, x);
        UpToFirst(c, es[1..], Added(claimed, id), Added(taken, id), r - 1, x, s - 1);
      }
    }
  }

  lemma {:induction false} AssignHead(c: Codec, es: seq<Entry>, claimed: set<Id>, taken: set<Id>)
    requires es != []
    ensures Assign(c, es, claimed, taken)[0] == WithId(es[0].row, Choice(c, es[0], claimed, taken))
  {
  }

  lemma {:induction false} SoundHead(es: seq<Entry>, r: nat, x: Id)
    requires SoundEntries(es) && FirstCarrier(es, r, x)
    ensures r < |es| && SoundEntry(es[0]) && (r == 0 ==> Claims(es[0], x))
    ensures r > 0 ==> x !in es[0].ids && SoundEntries(es[1..]) && FirstCarrier(es[1..], r - 1, x)
  {
    hide SoundEntry;
    assert es[0] in es;
  }

  /** Behind its first carrier nobody gets the id. */
  lemma {:induction false} BehindFirst(c: Codec, es: seq<Entry>, claimed: set<Id>, taken: set<Id>, r: nat, x: Id,
          s: nat)
    requires SoundEntries(es) && FirstCarrier(es, r, x) && !IsDerived(x) && x !in claimed && r < s < |es|
    ensures RowId(Assign(c, es, claimed, taken)[s]) != Some(x)
  {
    hide *;
    SoundHead(es, r, x);
    var id := Choice(c, es[0], claimed, taken);
    AssignTail(c, es, claimed, taken, s);
    if r == 0 {
      FirstTakes(c, es[0], claimed, taken, x);
      NowClaimed(claimed, x);
      LikesSound(es);
      NeverAgain(c, es[1..], Added(claimed, id), Added(taken, id), x, s - 1);
    } else {
      OthersDecline(c, es[0], claimed, taken, x);
      NotAdded(claimed, id, x);
      BehindFirst(c, es[1..], Added(claimed, id), Added(taken, id), r - 1, x, s - 1);
    }
  }

  lemma {:induction false} NowClaimed(claimed: set<Id>, x: Id)
    ensures x in Added(claimed, Some(x))
  {
  }

  lemma {:induction false} LikesSound(es: seq<Entry>)
    requires SoundEntries(es) && es != []
    ensures forall e | e in es[1..] :: Like(e).Some? ==> Numeric(Like(e).value)
  {
    hide Like, Numeric;
    forall e | e in es[1..] ensures Like(e).Some? ==> Numeric(Like(e).value) {
      assert SoundEntry(e);
    }
  }

  /** AN ID goes to its first carrier, and to nobody else. */
  lemma {:induction false} GoesToFirst(c: Codec, es: seq<Entry>, taken: set<Id>, r: nat, x: Id)
    requires SoundEntries(es) && FirstCarrier(es, r, x) && !IsDerived(x)
    ensures r < |es| && forall s | 0 <= s < |es| :: RowId(Assign(c, es, {}, taken)[s]) == Some(x) <==> s == r
  {
    hide *;
    CarrierThere(es, r, x);
    forall s | 0 <= s < |es| ensures RowId(Assign(c, es, {}, taken)[s]) == Some(x) <==> s == r {
      if s <= r {
        UpToFirst(c, es, {}, taken, r, x, s);
      } else {
        BehindFirst(c, es, {}, taken, r, x, s);
      }
    }
  }

  lemma {:induction false} CarrierThere(es: seq<Entry>, r: nat, x: Id)
    requires FirstCarrier(es, r, x)
    ensures r < |es| && x in es[r].ids
  {
  }

  lemma {:induction false} BoardSound(c: Codec, base: seq<Row>, ours: seq<Row>, theirs: seq<Row>, x: Id)
    requires NumericBoard(base + ours + theirs) && x in IdsOf(base + ours + theirs)
    ensures var ordered := Ordered(c, Build(c, Arrivals(base, ours, theirs)));
      SoundEntries(Logical(ordered, Contents(ordered)))
  {
    var ordered := Ordered(c, Build(c, Arrivals(base, ours, theirs)));
    var keys := Contents(ordered);
    var es := Logical(ordered, keys);
    MergeStable.EntryOfId(c, base, ours, theirs, x);
    LikesNumeric(c, base, ours, theirs);
    hide Logical, Contents, Ordered, Build, Like, Numeric;
    forall e | e in es ensures SoundEntry(e) {
      var t :| 0 <= t < |es| && es[t] == e;
      if e.baseId.Some? {
        BaseIdListed(ordered, keys, t);
      }
    }
  }

  lemma {:induction false} CarriedOnBoard(c: Codec, base: seq<Row>, ours: seq<Row>, theirs: seq<Row>, r: nat, x: Id)
    requires var ordered := Ordered(c, Build(c, Arrivals(base, ours, theirs)));
      FirstCarrier(Logical(ordered, Contents(ordered)), r, x)
    ensures x in IdsOf(base + ours + theirs)
  {
    var ordered := Ordered(c, Build(c, Arrivals(base, ours, theirs)));
    LikesAreInputIds(c, base, ours, theirs);
    hide Logical, Contents, Ordered, Build, IdsOf;
    var es := Logical(ordered, Contents(ordered));
    assert es[r] in es && x in es[r].ids;
    assert EntryWithin(es[r], IdsOf(base + ours + theirs));
  }

  /** In any merge, an id no merge invented goes to the first row emitted of those that were seen under it, when it is
      that row's base id or its only one, and no other row of the result has it. */
  lemma {:induction false} FirstCarrierKeeps(c: Codec, base: seq<Row>, ours: seq<Row>, theirs: seq<Row>, r: nat, x: Id)
    requires NumericBoard(base + ours + theirs) && !IsDerived(x)
    requires var ordered := Ordered(c, Build(c, Arrivals(base, ours, theirs)));
      FirstCarrier(Logical(ordered, Contents(ordered)), r, x)
    ensures var ordered := Ordered(c, Build(c, Arrivals(base, ours, theirs)));
      var es, out := Logical(ordered, Contents(ordered)), Merged(c, base, ours, theirs);
      && |out| == |es| && Payload(out[r]) == Payload(es[r].row)
      && forall s | 0 <= s < |out| :: RowId(out[s]) == Some(x) <==> s == r
  {
    hide *;
    var ordered := Ordered(c, Build(c, Arrivals(base, ours, theirs)));
    var es := Logical(ordered, Contents(ordered));
    CarriedOnBoard(c, base, ours, theirs, r, x);
    BoardSound(c, base, ours, theirs, x);
    CarrierThere(es, r, x);
    MergedIs(c, base, ours, theirs);
    SettleIs(c, ordered);
    GoesToFirst(c, es, InitialTaken(ordered), r, x);
    AssignContents(c, es, {}, InitialTaken(ordered), r);
  }

  // ---------------------------------------------------------------- a base that repeats an id

  function FirstIn<T(==)>(s: seq<T>, x: T): (k: nat)
    requires x in s
    ensures k < |s| && s[k] == x && forall j | 0 <= j < k :: s[j] != x
  {
    if s[0] == x then 0 else 1 + FirstIn(s[1..], x)
  }

  /** Where the content of base row `i` first appears in the base. */
  function FirstShown(base: seq<Row>, i: nat): nat
    requires i < |base|
  {
    FirstIn(MapSeq(Payload, base), MapSeq(Payload, base)[i])
  }

  lemma {:induction false} FirstInIs<T>(s: seq<T>, x: T, k: nat)
    requires k < |s| && s[k] == x && forall j | 0 <= j < k :: s[j] != x
    ensures FirstIn(s, x) == k
  {
  }

  lemma {:induction false} FirstInSnoc<T(!new)>(front: seq<T>, last: T, x: T)
    requires x in front + [last]
    ensures FirstIn(front + [last], x) == if x in front then FirstIn(front, x) else |front|
  {
    var s := front + [last];
    var k := if x in front then FirstIn(front, x) else |front|;
    assert forall j | 0 <= j < |front| :: s[j] == front[j];
    FirstInIs(s, x, k);
  }

  /** The values are listed in order of their first appearance. */
  lemma {:induction false} DistinctInOrder<T(!new)>(s: seq<T>, m: nat, n: nat)
    requires m < n < |Distinct(s)|
    ensures FirstIn(s, Distinct(s)[m]) < FirstIn(s, Distinct(s)[n])
  {
    var front, last := s[..|s| - 1], s[|s| - 1];
    var d := Distinct(front);
    assert s == front + [last];
    DistinctSnoc(front, last);
    assert d[m] in front;
    FirstInSnoc(front, last, d[m]);
    if n < |d| {
      assert d[n] in front;
      FirstInSnoc(front, last, d[n]);
      DistinctInOrder(front, m, n);
    } else {
      FirstInSnoc(front, last, last);
    }
  }

  function BaseClusters(base: seq<Row>): (cl: seq<Cluster>)
    ensures |cl| == |base|
  {
    seq(|base|, i requires 0 <= i < |base| => OfBase(base[i], i))
  }

  lemma {:induction false} BuildBaseRows(c: Codec, base: seq<Row>)
    requires ApartRows(base)
    ensures Build(c, BaseArrivals(base)) == BaseClusters(base)
  {
    if base != [] {
      var front, last := base[..|base| - 1], base[|base| - 1];
      BuildBaseRows(c, front);
      var a := Arrival(last, Some(|front|));
      assert BaseArrivals(base) == BaseArrivals(front) + [a];
      assert BaseClusters(base) == BaseClusters(front) + [Opened(a)];
      BuildFresh(c, BaseArrivals(front), BaseClusters(front), a);
    }
  }

  lemma {:induction false} BaseOrder(c: Codec, base: seq<Row>)
    requires ApartRows(base)
    ensures Ordered(c, Build(c, Arrivals(base, [], []))) == BaseClusters(base)
    ensures MapSeq(PayloadOf, BaseClusters(base)) == MapSeq(Payload, base)
  {
    var cl := BaseClusters(base);
    BuildBaseRows(c, base);
    assert Arrivals(base, [], []) == BaseArrivals(base);
    OrderedSplit(c, cl, []);
    SortedStays(BasePosLe, cl);
    SortedStays(ContentLe(c), []);
    assert cl + [] == cl;
  }

  /** No content shown under `x` folds. */
  ghost predicate HoldersApart(base: seq<Row>, x: Id) {
    forall j | 0 <= j < |base| && RowId(base[j]) == Some(x) ::
        !Collapses(BaseClusters(base), Group(BaseClusters(base), Payload(base[j])))
  }

  lemma {:induction false} BaseCarrier(base: seq<Row>, cu: Cluster, x: Id) returns (w: nat)
    requires cu in BaseClusters(base) && x in ClusterIds(cu)
    ensures w < |base| && cu == OfBase(base[w], w) && RowId(base[w]) == Some(x) && ClusterIds(cu) == [x]
    ensures Payload(cu.row) == Payload(base[w])
  {
    w :| 0 <= w < |base| && BaseClusters(base)[w] == cu;
    if RowId(base[w]).Some? {
      OfBaseIds(base[w], w);
    }
  }

  /** An entry that carries `x` is a base row under `x`. */
  lemma {:induction false} CarrierRow(base: seq<Row>, keys: seq<Row>, r: nat, x: Id) returns (m: nat, w: nat)
    requires HoldersApart(base, x) && r < |Logical(BaseClusters(base), keys)|
    requires x in Logical(BaseClusters(base), keys)[r].ids
    ensures m < |keys| && w < |base| && RowId(base[w]) == Some(x) && Payload(base[w]) == keys[m]
    ensures Logical(BaseClusters(base), keys)[r].ids == [x]
    ensures Payload(Logical(BaseClusters(base), keys)[r].row) == keys[m]
    ensures Offset(BaseClusters(base), keys, m) <= r
  {
    hide *;
    var ordered := BaseClusters(base);
    var k;
    m, k := EntryPlace(ordered, keys, r);
    EntryShows(ordered, keys[m], k);
    var p, cu := EntryContent(ordered, keys, r, x);
    w := BaseCarrier(base, cu, x);
    HolderApart(base, x, w);
    SingleBack(ordered, keys[m], k);
    var v := BaseCarrier(base, Group(ordered, keys[m])[k], x);
  }

  lemma {:induction false} HolderApart(base: seq<Row>, x: Id, w: nat)
    requires HoldersApart(base, x) && w < |base| && RowId(base[w]) == Some(x)
    ensures !Collapses(BaseClusters(base), Group(BaseClusters(base), Payload(base[w])))
  {
  }

  lemma {:induction false} SingleBack(ordered: seq<Cluster>, p: Row, k: nat)
    requires !Collapses(ordered, Group(ordered, p)) && k < |EntriesOf(ordered, Group(ordered, p))|
    ensures k < |Group(ordered, p)| && Group(ordered, p)[k] in ordered
    ensures EntriesOf(ordered, Group(ordered, p))[k].ids == ClusterIds(Group(ordered, p)[k])
  {
    SingleAt(ordered, p, k);
  }

  /** Every base row under `x` has an entry that carries it, among those of its content. */
  lemma {:induction false} HolderEntry(base: seq<Row>, keys: seq<Row>, j: nat, x: Id) returns (m: nat, s: nat)
    requires j < |base| && RowId(base[j]) == Some(x) && keys == Contents(BaseClusters(base))
    ensures m < |keys| && keys[m] == Payload(base[j]) && s < |Logical(BaseClusters(base), keys)|
    ensures x in Logical(BaseClusters(base), keys)[s].ids
    ensures forall n | m < n <= |keys| :: s < Offset(BaseClusters(base), keys, n)
  {
    hide *;
    var ordered := BaseClusters(base);
    var k;
    m, k := HolderGroup(base, keys, j, x);
    var t := EntryHolds(ordered, keys[m], k, x);
    EntryAt(ordered, keys, m, t);
    s := Offset(ordered, keys, m) + t;
    forall n | m < n <= |keys| ensures s < Offset(ordered, keys, n) {
      OffsetGrows(ordered, keys, m, n);
    }
  }

  lemma {:induction false} HolderGroup(base: seq<Row>, keys: seq<Row>, j: nat, x: Id) returns (m: nat, k: nat)
    requires j < |base| && RowId(base[j]) == Some(x) && keys == Contents(BaseClusters(base))
    ensures m < |keys| && keys[m] == Payload(base[j]) && k < |Group(BaseClusters(base), keys[m])|
    ensures x in ClusterIds(Group(BaseClusters(base), keys[m])[k])
  {
    var ordered := BaseClusters(base);
    var cu := ordered[j];
    OfBaseIds(base[j], j);
    assert cu in ordered && Payload(cu.row) == Payload(base[j]);
    assert Payload(base[j]) in keys;
    m :| 0 <= m < |keys| && keys[m] == Payload(base[j]);
    assert cu in Group(ordered, keys[m]);
    k :| 0 <= k < |Group(ordered, keys[m])| && Group(ordered, keys[m])[k] == cu;
  }

  lemma {:induction false} LeastCarrier(es: seq<Entry>, x: Id, s: nat) returns (r: nat)
    requires s < |es| && x in es[s].ids
    ensures r <= s && x in es[r].ids && forall t | 0 <= t < r :: x !in es[t].ids
  {
    if t :| 0 <= t < s && x in es[t].ids {
      r := LeastCarrier(es, x, t);
    } else {
      r := s;
    }
  }

  /** Two base rows of one id and one content would be one row. */
  lemma {:induction false} OneHolder(base: seq<Row>, i: nat, j: nat, x: Id)
    requires ApartRows(base) && i < |base| && j < |base| && RowId(base[i]) == RowId(base[j]) == Some(x)
    requires Payload(base[i]) == Payload(base[j])
    ensures i == j
  {
    assert SameRow(base[i], base[j]) && SameRow(base[j], base[i]);
    hide SameRow;
  }

  lemma {:induction false} ShownInOrder(base: seq<Row>, keys: seq<Row>, w: nat, m: nat, j: nat, n: nat)
    requires keys == Distinct(MapSeq(Payload, base)) && m < n < |keys| && w < |base| && j < |base|
    requires keys[m] == Payload(base[w]) && keys[n] == Payload(base[j])
    ensures FirstShown(base, w) < FirstShown(base, j)
  {
    hide Payload;
    DistinctInOrder(MapSeq(Payload, base), m, n);
  }

  /** The first carrier shows its content before every other row under the id does. */
  lemma {:induction false} CarrierFirst(base: seq<Row>, keys: seq<Row>, r: nat, m: nat, w: nat, j: nat, x: Id)
    requires ApartRows(base) && keys == Contents(BaseClusters(base)) == Distinct(MapSeq(Payload, base))
    requires m < |keys| && w < |base| && RowId(base[w]) == Some(x) && Payload(base[w]) == keys[m]
    requires Offset(BaseClusters(base), keys, m) <= r < |Logical(BaseClusters(base), keys)|
    requires forall s | 0 <= s < r :: x !in Logical(BaseClusters(base), keys)[s].ids
    requires j < |base| && j != w && RowId(base[j]) == Some(x)
    ensures FirstShown(base, w) < FirstShown(base, j)
  {
    hide *;
    var n, s := HolderEntry(base, keys, j, x);
    if n == m {
      OneHolder(base, w, j, x);
    } else if m < n {
      ShownInOrder(base, keys, w, m, j, n);
    }
  }

  ghost predicate HeldOnce(rows: seq<Row>, x: Id) {
    exists r: nat :: HeldOnlyBy(rows, r, x)
  }

  ghost predicate HeldOnlyBy(rows: seq<Row>, r: nat, x: Id) {
    r < |rows| && forall s | 0 <= s < |rows| :: RowId(rows[s]) == Some(x) <==> s == r
  }

  lemma {:induction false} KeptBy(rows: seq<Row>, r: nat, x: Id, p: Row)
    requires r < |rows| && forall s | 0 <= s < |rows| :: RowId(rows[s]) == Some(x) <==> s == r
    ensures HeldOnce(rows, x) && (Kept(rows, Some(x), p) <==> Payload(rows[r]) == p)
  {
    hide Payload;
    assert HeldOnlyBy(rows, r, x);
    assert rows[r] in rows;
  }

  lemma {:induction false} BaseContents(c: Codec, base: seq<Row>)
    requires ApartRows(base)
    ensures Contents(BaseClusters(base)) == Distinct(MapSeq(Payload, base))
  {
    BaseOrder(c, base);
  }

  lemma {:induction false} IdInBase(base: seq<Row>, i: nat, x: Id)
    requires NumericBoard(base) && i < |base| && RowId(base[i]) == Some(x)
    ensures base + [] + [] == base
  {
  }

  /** A REPEATED BASE ID, a base of any length and nothing new: exactly one row keeps the id, the one whose content
      appears in the base before the contents of the others do, be it their first holder or not. */
  lemma {:induction false} RepeatedBaseId(c: Codec, base: seq<Row>, x: Id, i: nat)
    requires ApartRows(base) && NumericBoard(base) && !IsDerived(x) && HoldersApart(base, x)
    requires i < |base| && RowId(base[i]) == Some(x)
    ensures HeldOnce(Merged(c, base, [], []), x)
    ensures Kept(Merged(c, base, [], []), Some(x), Payload(base[i]))
       <==> forall j | 0 <= j < |base| && j != i && RowId(base[j]) == Some(x) ::
                FirstShown(base, i) < FirstShown(base, j)
  {
    hide *;
    var ordered, keys := BaseClusters(base), Contents(BaseClusters(base));
    var es, out := Logical(ordered, keys), Merged(c, base, [], []);
    BaseOrder(c, base);
    BaseContents(c, base);
    IdInBase(base, i, x);
    var n, s := HolderEntry(base, keys, i, x);
    var r := LeastCarrier(es, x, s);
    var m, w := CarrierRow(base, keys, r, x);
    ClaimsAlone(es[r], x);
    IsFirstCarrier(es, r, x);
    FirstCarrierKeeps(c, base, [], [], r, x);
    KeptBy(out, r, x, Payload(base[i]));
    forall j | 0 <= j < |base| && j != w && RowId(base[j]) == Some(x)
      ensures FirstShown(base, w) < FirstShown(base, j)
    {
      CarrierFirst(base, keys, r, m, w, j, x);
    }
    if Payload(base[i]) == Payload(base[w]) {
      OneHolder(base, i, w, x);
    }
  }

  lemma {:induction false} ClaimsAlone(e: Entry, x: Id)
    requires e.ids == [x]
    ensures Claims(e, x)
  {
  }

  lemma {:induction false} IsFirstCarrier(es: seq<Entry>, r: nat, x: Id)
    requires r < |es| && Claims(es[r], x)
    requires forall s | 0 <= s < r :: x !in es[s].ids
    ensures FirstCarrier(es, r, x)
  {
  }

  // ---------------------------------------------------------------- one base row at a time

  /** Some new cluster is emitted early under the id of base row `j`. */
  ghost predicate IntrudedAt(c: Codec, cl: seq<Cluster>, j: nat)
    requires j < |cl|
  {
    exists i, n :: 0 <= i < j && n in cl && IsNew(n) && Intrudes(Ordered(c, cl), cl[i], cl[j], n)
  }

  /** No content of an earlier base row folds rows together one of which was seen under `x`. */
  ghost predicate NoEarlyFold(ordered: seq<Cluster>, cl: seq<Cluster>, j: nat, x: Id)
    requires j < |cl|
  {
    forall i | 0 <= i < j :: var g := Group(ordered, Payload(cl[i].row)); Collapses(ordered, g) ==> x !in GroupIds(g)
  }

  /** The base clusters in order, of different contents and different keys, cluster `j` under the base id `x`. */
  ghost predicate BaseFront(front: seq<Cluster>, j: nat, x: Id) {
    && BaseApart(front, |front|) && j < |front| && front[j].baseId == Some(x) && front[j].row.Obj?
    && (forall i | 0 <= i < |front| && i != j :: x !in ClusterIds(front[i]))
  }

  /** What stands before base row `j` and carries its id is an intruder, and was seen under nothing else. */
  lemma {:induction false} EarlyCarrier(front: seq<Cluster>, back: seq<Cluster>, keys: seq<Row>, s: nat, j: nat, x: Id)
    returns (i: nat, n: Cluster)
    requires BaseFront(front, j, x) && NoEarlyFold(front + back, front, j, x) && keys == Contents(front + back)
    requires |front| <= |keys| && forall m | 0 <= m < |front| :: keys[m] == Payload(front[m].row)
    requires s < |Logical(front + back, keys)| && s < Offset(front + back, keys, j)
    requires x in Logical(front + back, keys)[s].ids
    ensures i < j && n in back && Intrudes(front + back, front[i], front[j], n)
    ensures Logical(front + back, keys)[s] == Single(n) && Payload(n.row) == keys[i]
  {
    hide *;
    FrontFacts(front, j, x);
    var ordered := front + back;
    var k;
    i, k := EntryPlace(ordered, keys, s);
    PlaceBefore(ordered, keys, i, k, j);
    EarlyApart(ordered, front, i, j, x, k);
    LeaderFirst(front, back, i, k, x);
    LaterEntry(front, back, i, k);
    n := Group(ordered, keys[i])[k];
    CarriedSingle(n, x);
    IsIntruder(ordered, front[i], front[j], n, x);
  }

  lemma {:induction false} FrontFacts(front: seq<Cluster>, j: nat, x: Id)
    requires BaseFront(front, j, x)
    ensures BaseApart(front, |front|) && j < |front| && front[j].baseId == Some(x)
    ensures forall i | 0 <= i < |front| && i != j :: x !in ClusterIds(front[i])
  {
  }

  lemma {:induction false} EarlyApart(ordered: seq<Cluster>, front: seq<Cluster>, i: nat, j: nat, x: Id, k: nat)
    requires i < j < |front| && NoEarlyFold(ordered, front, j, x)
    requires k < |EntriesOf(ordered, Group(ordered, Payload(front[i].row)))|
    requires x in EntriesOf(ordered, Group(ordered, Payload(front[i].row)))[k].ids
    ensures !Collapses(ordered, Group(ordered, Payload(front[i].row)))
  {
    hide Collapses, GroupIds, Group, Payload;
  }

  /** The leader of an earlier group does not carry the id. */
  lemma {:induction false} LeaderFirst(front: seq<Cluster>, back: seq<Cluster>, i: nat, k: nat, x: Id)
    requires BaseApart(front, |front|) && i < |front| && x !in ClusterIds(front[i])
    requires var g := Group(front + back, Payload(front[i].row));
      && !Collapses(front + back, g) && k < |EntriesOf(front + back, g)| && x in EntriesOf(front + back, g)[k].ids
    ensures k > 0
  {
    BaseGroup(front, back, i);
    hide Group, Collapses, ClusterIds, GroupIds;
  }

  lemma {:induction false} CarriedSingle(n: Cluster, x: Id)
    requires x in Single(n).ids
    ensures x in ClusterIds(n)
  {
  }

  lemma {:induction false} IsIntruder(ordered: seq<Cluster>, earlier: Cluster, later: Cluster, n: Cluster, x: Id)
    requires later.baseId == Some(x) && x in ClusterIds(n) && Payload(n.row) == Payload(earlier.row)
    requires !Collapses(ordered, Group(ordered, Payload(earlier.row)))
    ensures Intrudes(ordered, earlier, later, n)
  {
  }

  lemma {:induction false} LeaderClaims(front: seq<Cluster>, back: seq<Cluster>, keys: seq<Row>, j: nat, x: Id)
    requires BaseFront(front, j, x) && keys == Contents(front + back) && |front| <= |keys|
    requires keys[j] == Payload(front[j].row)
    ensures var es, at := Logical(front + back, keys), Offset(front + back, keys, j);
      at < |es| && Claims(es[at], x) && Payload(es[at].row) == keys[j]
  {
    hide *;
    FrontFacts(front, j, x);
    LeadEntry(front, back, j);
    EntryAt(front + back, keys, j, 0);
    EntryShows(front + back, keys[j], 0);
    GroupBaseId(front + back, Group(front + back, keys[j]), 0);
    ClaimsByBase(EntriesOf(front + back, Group(front + back, keys[j]))[0], x);
  }

  lemma {:induction false} ClaimsByBase(e: Entry, x: Id)
    requires e.baseId == Some(x) && x in e.ids
    ensures Claims(e, x)
  {
  }

  /** With nobody early under its id, the base row's entry is the first carrier; otherwise an intruder is. */
  lemma {:induction false} WhoIsFirst(front: seq<Cluster>, back: seq<Cluster>, keys: seq<Row>, j: nat, x: Id)
    returns (r: nat)
    requires BaseFront(front, j, x) && NoEarlyFold(front + back, front, j, x) && keys == Contents(front + back)
    requires |front| <= |keys| && forall m | 0 <= m < |front| :: keys[m] == Payload(front[m].row)
    requires forall n | n in back && x in ClusterIds(n) :: ClusterIds(n) == [x]
    ensures FirstCarrier(Logical(front + back, keys), r, x) && r < |Logical(front + back, keys)|
    ensures Payload(Logical(front + back, keys)[r].row) == keys[j]
       <==> forall i, n | 0 <= i < j && n in back :: !Intrudes(front + back, front[i], front[j], n)
  {
    hide *;
    FrontFacts(front, j, x);
    var es, at := Logical(front + back, keys), Offset(front + back, keys, j);
    LeaderClaims(front, back, keys, j, x);
    ClaimsHold(es[at], x);
    r := LeastCarrier(es, x, at);
    if r < at {
      var i, n := EarlyCarrier(front, back, keys, r, j, x);
      CarriedSingle(n, x);
      SingleClaims(n, x);
      SingleRow(n);
      DifferentKeys(front, keys, i, j);
    } else {
      forall i, n | 0 <= i < j && n in back ensures !Intrudes(front + back, front[i], front[j], n) {
        if Intrudes(front + back, front[i], front[j], n) {
          var q := IntruderAt(front, back, keys, i, j, n);
          IntruderCarries(front + back, front[i], front[j], n, x);
        }
      }
    }
    IsFirstCarrier(es, r, x);
  }

  lemma {:induction false} ClaimsHold(e: Entry, x: Id)
    requires Claims(e, x)
    ensures x in e.ids
  {
  }

  lemma {:induction false} SingleClaims(n: Cluster, x: Id)
    requires x in Single(n).ids && ClusterIds(n) == [x]
    ensures Claims(Single(n), x)
  {
  }

  lemma {:induction false} DifferentKeys(front: seq<Cluster>, keys: seq<Row>, i: nat, j: nat)
    requires BaseApart(front, |front|) && i < j < |front| <= |keys|
    requires forall m | 0 <= m < |front| :: keys[m] == Payload(front[m].row)
    ensures keys[i] != keys[j]
  {
    hide Payload;
  }

  lemma {:induction false} IntruderCarries(ordered: seq<Cluster>, earlier: Cluster, later: Cluster, n: Cluster, x: Id)
    requires Intrudes(ordered, earlier, later, n) && later.baseId == Some(x)
    ensures x in Single(n).ids
  {
  }

  // ---------------------------------------------------------------- and the claim

  /** No other base cluster was seen under the id. */
  lemma {:induction false} IdsOfOthers(cu: Cluster, row: Row, other: Row, pos: nat, x: Id)
    requires Spelt(cu) && StandsFor(cu, row, pos) && RowId(other) == Some(x) && RowKey(row) != RowKey(other)
    ensures x !in ClusterIds(cu)
  {
    hide ClusterIds, Carries;
  }

  lemma {:induction false} StandsUnder(cu: Cluster, row: Row, pos: nat, x: Id)
    requires StandsFor(cu, row, pos) && RowId(row) == Some(x)
    ensures cu.baseId == Some(x) && cu.row.Obj?
  {
    hide Carries;
  }

  lemma {:induction false} KeysDiffer(base: seq<Row>, i: nat, j: nat)
    requires DistinctKeys(base) && i < |base| && j < |base| && i != j
    ensures RowKey(base[i]) != RowKey(base[j])
  {
    hide RowKey;
  }

  lemma {:induction false} InPlace(cl: seq<Cluster>, base: seq<Row>, i: nat)
    requires BaseInPlace(cl, base) && i < |base|
    ensures i < |cl| && StandsFor(cl[i], base[i], i) && cl[i] in cl
  {
    hide StandsFor;
  }

  lemma {:induction false} IsBaseFront(c: Codec, arrivals: seq<Arrival>, base: seq<Row>, j: nat, x: Id)
    requires BaseInPlace(Build(c, arrivals), base) && BaseApart(Build(c, arrivals), |base|) && DistinctKeys(base)
    requires j < |base| <= |Build(c, arrivals)| && RowId(base[j]) == Some(x)
    ensures BaseFront(Build(c, arrivals)[..|base|], j, x)
  {
    hide *;
    var cl := Build(c, arrivals);
    BuildSpelt(c, arrivals);
    InPlace(cl, base, j);
    StandsUnder(cl[j], base[j], j, x);
    forall i | 0 <= i < |base| && i != j ensures x !in ClusterIds(cl[..|base|][i]) {
      InPlace(cl, base, i);
      KeysDiffer(base, i, j);
      IdsOfOthers(cl[i], base[i], base[j], i, x);
    }
    FrontIs(cl, |base|, j, x);
  }

  lemma {:induction false} FrontIs(cl: seq<Cluster>, n: nat, j: nat, x: Id)
    requires BaseApart(cl, n) && j < n && cl[j].baseId == Some(x) && cl[j].row.Obj?
    requires forall i | 0 <= i < n && i != j :: x !in ClusterIds(cl[..n][i])
    ensures BaseFront(cl[..n], j, x)
  {
    hide ClusterIds, Payload;
    assert forall i | 0 <= i < n :: cl[..n][i] == cl[i];
  }

  lemma {:induction false} IntrudedAtMeans(c: Codec, cl: seq<Cluster>, n: nat, j: nat, back: seq<Cluster>)
    requires j < n <= |cl| && Ordered(c, cl) == cl[..n] + back
    requires forall x :: x in back <==> x in cl && IsNew(x)
    ensures IntrudedAt(c, cl, j)
       <==> !forall i, x | 0 <= i < j && x in back :: !Intrudes(cl[..n] + back, cl[..n][i], cl[..n][j], x)
  {
    hide Intrudes, Ordered, IsNew;
    var front := cl[..n];
    assert forall i | 0 <= i < n :: front[i] == cl[i];
    if IntrudedAt(c, cl, j) {
      var i, x :| 0 <= i < j && x in cl && IsNew(x) && Intrudes(Ordered(c, cl), cl[i], cl[j], x);
      assert Intrudes(front + back, front[i], front[j], x);
    }
    if i, x :| 0 <= i < j && x in back && Intrudes(front + back, front[i], front[j], x) {
      assert Intrudes(Ordered(c, cl), cl[i], cl[j], x);
    }
  }

  lemma {:induction false} EarlyFoldFront(ordered: seq<Cluster>, cl: seq<Cluster>, n: nat, j: nat, x: Id)
    requires j < n <= |cl| && NoEarlyFold(ordered, cl, j, x)
    ensures NoEarlyFold(ordered, cl[..n], j, x)
  {
    hide Collapses, GroupIds, Group, Payload;
    assert forall i | 0 <= i < n :: cl[..n][i] == cl[i];
  }

  /** ONE BASE ROW, exactly, whatever ids its neighbours have: a base row under an id no merge invented keeps it if and
      only if no new row carries it while showing an earlier base row's content in a group that stays apart. Asked is
      that no earlier base row's content folds with a row that carries it. */
  lemma {:induction false} BaseRowExactly(c: Codec, base: seq<Row>, ours: seq<Row>, theirs: seq<Row>, j: nat, x: Id)
    requires NumericBoard(base + ours + theirs) && OneSpelling(IdsOf(base + ours + theirs)) && DistinctKeys(base)
    requires j < |base| && RowId(base[j]) == Some(x) && !IsDerived(x)
    requires var cl := Build(c, Arrivals(base, ours, theirs));
      BaseApart(cl, |base|) && NoEarlyFold(Ordered(c, cl), cl, j, x)
    ensures var cl := Build(c, Arrivals(base, ours, theirs));
      && Carries(cl[j].row, base[j])
      && (Kept(Merged(c, base, ours, theirs), Some(x), Payload(cl[j].row)) <==> !IntrudedAt(c, cl, j))
  {
    hide *;
    var cl := Build(c, Arrivals(base, ours, theirs));
    ApartThere(cl, |base|);
    var front, back := cl[..|base|], SortBy(ContentLe(c), cl[|base|..]);
    var keys := Contents(front + back);
    BaseInOrder(c, base, ours, theirs);
    InPlace(cl, base, j);
    StandsCarries(cl[j], base[j], j);
    IsBaseFront(c, Arrivals(base, ours, theirs), base, j, x);
    FrontFacts(front, j, x);
    BaseKeys(front, back);
    EarlyFoldFront(front + back, cl, |base|, j, x);
    forall n ensures n in back <==> n in cl && IsNew(n) {
      BackClusters(c, cl, base, n);
    }
    forall n | n in back && x in ClusterIds(n) ensures ClusterIds(n) == [x] {
      NewOneId(c, base, ours, theirs, n, x);
    }
    var r := WhoIsFirst(front, back, keys, j, x);
    FirstCarrierKeeps(c, base, ours, theirs, r, x);
    KeptBy(Merged(c, base, ours, theirs), r, x, Payload(cl[j].row));
    IntrudedAtMeans(c, cl, |base|, j, back);
  }

  lemma {:induction false} ApartThere(cl: seq<Cluster>, n: nat)
    requires BaseApart(cl, n)
    ensures n <= |cl|
  {
  }

  lemma {:induction false} StandsCarries(cu: Cluster, row: Row, pos: nat)
    requires StandsFor(cu, row, pos)
    ensures Carries(cu.row, row)
  {
    hide Carries;
  }
}
