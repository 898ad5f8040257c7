/** What the merge promises about ids: unique, kept by the base, and kept by everyone unless held elsewhere. */
module MergeIds {
  import opened Prelude
  import opened BoardRows
  import opened IdSpace
  import opened MergeSpec
  import opened MergeLossless
  import MergeRows

  // ---------------------------------------------------------------- where ids come from

  ghost predicate IdsWithin(cu: Cluster, s: set<Id>) {
    forall id | id in ClusterIds(cu) :: id in s
  }

  lemma {:induction false} BuildIdsWithin(c: Codec, arrivals: seq<Arrival>, s: set<Id>)
    requires forall a | a in arrivals :: RowId(a.row).Some? ==> a.row.id.value in s
    ensures forall cu | cu in Build(c, arrivals) :: IdsWithin(cu, s)
  {
    if arrivals != [] {
      var front, last := arrivals[..|arrivals| - 1], arrivals[|arrivals| - 1];
      var cl := Build(c, front);
      assert last in arrivals;
      BuildIdsWithin(c, front, s);
      var hit := FindHit(cl, last.row);
      var was := if hit.Some? then cl[hit.value] else NewCluster(last.row);
      assert hit.Some? ==> was in cl;
      NoteRowIdsWithin(c, was, last, s);
    }
  }

  lemma {:induction false} NoteRowIdsWithin(c: Codec, cu: Cluster, a: Arrival, s: set<Id>)
    requires IdsWithin(cu, s) && (RowId(a.row).Some? ==> a.row.id.value in s)
    ensures IdsWithin(NoteRow(c, cu, a), s)
  {
    var p := Placed(cu, a);
    var v := Versioned(c, p, a.row);
    assert forall id | id in ClusterIds(v) :: id in ClusterIds(cu) || RowId(a.row) == Some(id);
    assert forall id | id in ClusterIds(Numbered(v, a.row)) :: id in ClusterIds(v) || RowId(a.row) == Some(id);
  }

  ghost predicate EntryWithin(e: Entry, s: set<Id>) {
    && (forall id | id in e.ids :: id in s)
    && (e.baseId.Some? ==> e.baseId.value in s)
    && (RowId(e.row).Some? ==> e.row.id.value in s)
  }

  lemma {:induction false} LogicalWithin(ordered: seq<Cluster>, keys: seq<Row>, s: set<Id>)
    requires forall cu | cu in ordered :: IdsWithin(cu, s)
    requires forall p | p in keys :: p in Contents(ordered)
    ensures forall e | e in Logical(ordered, keys) :: EntryWithin(e, s)
  {
    if keys != [] {
      var front, last := keys[..|keys| - 1], keys[|keys| - 1];
      assert keys == front + [last];
      LogicalWithin(ordered, front, s);
      var g := Group(ordered, last);
      assert last in keys;
      assert last in Contents(ordered);
      var cu :| cu in ordered && Payload(cu.row) == last;
      assert cu in g && g[0] in g;
      GroupWithin(ordered, g, s);
    }
  }

  lemma {:induction false} GroupWithin(ordered: seq<Cluster>, g: seq<Cluster>, s: set<Id>)
    requires g != [] && forall cu | cu in g :: IdsWithin(cu, s)
    ensures forall e | e in EntriesOf(ordered, g) :: EntryWithin(e, s)
  {
    forall cu | cu in g ensures EntryWithin(Single(cu), s) {
      assert RowId(cu.row).Some? ==> cu.row.id.value in ClusterIds(cu);
      assert cu.baseId.Some? ==> cu.baseId.value in ClusterIds(cu);
    }
    assert g[0] in g;
    assert EntryWithin(Single(g[0]), s);
  }

  // ---------------------------------------------------------------- unique ids

  ghost predicate NoRepeatedIds(rows: seq<Row>) {
    forall i, j | 0 <= i < j < |rows| :: RowId(rows[i]).Some? ==> RowId(rows[i]) != RowId(rows[j])
  }

  /** The chosen id is one nobody claimed, because everything claimed is also taken. */
  lemma {:induction false} ChoiceUnclaimed(c: Codec, e: Entry, claimed: set<Id>, taken: set<Id>)
    requires SaltsSpread(c) && |taken| < DERIVED_ID_SPAN && claimed <= taken
    requires Like(e).Some? ==> !Tailed(Like(e).value)
    ensures var id := Choice(c, e, claimed, taken);
      && (id.Some? ==> id.value !in claimed)
      && (RowId(WithId(e.row, id)).Some? ==> RowId(WithId(e.row, id)) == id)
  {
    if OwnChoice(e, claimed).None? && Like(e).Some? {
      FreshIsFree(c, Like(e), c.digest(Payload(e.row)), taken);
    }
  }

  lemma {:induction false} OneMore(row: Row, rest: seq<Row>, claimed: set<Id>, id: Option<Id>)
    requires NoRepeatedIds(rest) && (id.Some? ==> id.value !in claimed)
    requires RowId(row).Some? ==> RowId(row) == id
    requires forall r | r in rest :: RowId(r).Some? ==> r.id.value !in Added(claimed, id)
    ensures NoRepeatedIds([row] + rest)
    ensures forall r | r in [row] + rest :: RowId(r).Some? ==> r.id.value !in claimed
  {
  }

  /** What the loop keeps: ids already claimed are all known to the allocator, so no later row gets one. */
  lemma {:induction false} AssignUnique(c: Codec, es: seq<Entry>, claimed: set<Id>, taken: set<Id>)
    requires SaltsSpread(c) && |taken| + |es| <= DERIVED_ID_SPAN
    requires claimed <= taken
    requires forall e | e in es :: Like(e).Some? ==> !Tailed(Like(e).value)
    ensures NoRepeatedIds(Assign(c, es, claimed, taken))
    ensures forall row | row in Assign(c, es, claimed, taken) :: RowId(row).Some? ==> row.id.value !in claimed
  {
    if es != [] {
      var e := es[0];
      var id := Choice(c, e, claimed, taken);
      ChoiceUnclaimed(c, e, claimed, taken);
      assert |Added(taken, id)| <= |taken| + 1;
      AssignUnique(c, es[1..], Added(claimed, id), Added(taken, id));
      OneMore(WithId(e.row, id), Assign(c, es[1..], Added(claimed, id), Added(taken, id)), claimed, id);
    }
  }

  lemma {:induction false} ArrivalIds(base: seq<Row>, ours: seq<Row>, theirs: seq<Row>)
    ensures forall a | a in Arrivals(base, ours, theirs) ::
        RowId(a.row).Some? ==> a.row.id.value in IdsOf(base + ours + theirs)
  {
    var rows, arrivals := base + ours + theirs, Arrivals(base, ours, theirs);
    RowsInArrivals(base, ours, theirs);
    forall a | a in arrivals ensures RowId(a.row).Some? ==> a.row.id.value in IdsOf(rows) {
      var i :| 0 <= i < |arrivals| && arrivals[i] == a;
      assert RowsIn(arrivals)[i] == a.row;
      assert rows[i] == a.row;
    }
  }

  lemma {:induction false} LikesAreInputIds(c: Codec, base: seq<Row>, ours: seq<Row>, theirs: seq<Row>)
    ensures var ordered := Ordered(c, Build(c, Arrivals(base, ours, theirs)));
      forall e | e in Logical(ordered, Contents(ordered)) :: EntryWithin(e, IdsOf(base + ours + theirs))
  {
    var arrivals, s := Arrivals(base, ours, theirs), IdsOf(base + ours + theirs);
    ArrivalIds(base, ours, theirs);
    BuildIdsWithin(c, arrivals, s);
    OrderedSameClusters(c, Build(c, arrivals));
    var ordered := Ordered(c, Build(c, arrivals));
    LogicalWithin(ordered, Contents(ordered), s);
  }

  lemma {:induction false} LikesUntailed(c: Codec, base: seq<Row>, ours: seq<Row>, theirs: seq<Row>)
    requires forall row | row in base + ours + theirs :: RowId(row).Some? ==> !Tailed(row.id.value)
    ensures var ordered := Ordered(c, Build(c, Arrivals(base, ours, theirs)));
      forall e | e in Logical(ordered, Contents(ordered)) :: Like(e).Some? ==> !Tailed(Like(e).value)
  {
    LikesAreInputIds(c, base, ours, theirs);
    var s := IdsOf(base + ours + theirs);
    assert forall id | id in s :: !Tailed(id);
    var ordered := Ordered(c, Build(c, Arrivals(base, ours, theirs)));
    forall e | e in Logical(ordered, Contents(ordered)) ensures Like(e).Some? ==> Like(e).value in s {
      assert EntryWithin(e, s);
    }
  }

  /** UNIQUE IDS: on boards whose string ids do not end in digits (all number boards, in particular)
      no id is repeated in the result, whatever the hashes collide on. */
  lemma {:induction false} UniqueIds(c: Codec, base: seq<Row>, ours: seq<Row>, theirs: seq<Row>)
    requires SaltsSpread(c) && 2 * (|base| + |ours| + |theirs|) <= DERIVED_ID_SPAN
    requires forall row | row in base + ours + theirs :: RowId(row).Some? ==> !Tailed(row.id.value)
    ensures NoRepeatedIds(Merged(c, base, ours, theirs))
  {
    var ordered := Ordered(c, Build(c, Arrivals(base, ours, theirs)));
    var es := Logical(ordered, Contents(ordered));
    LikesUntailed(c, base, ours, theirs);
    MergeRows.FewIds(c, base, ours, theirs);
    AssignUnique(c, es, {}, InitialTaken(ordered));
  }

  // ---------------------------------------------------------------- kept unless held

  /** The row ends under an id it arrived with. */
  ghost predicate KeepsAnId(e: Entry, row: Row) {
    RowId(row).Some? && (row.id.value in e.ids || row.id == e.baseId)
  }

  lemma {:induction false} ChoiceKeeps(c: Codec, e: Entry, claimed: set<Id>, taken: set<Id>, id: Id)
    requires e.row.Obj? && id in e.ids && id !in claimed
    ensures KeepsAnId(e, WithId(e.row, Choice(c, e, claimed, taken)))
  {
    SortPermutes(IdLe, e.ids);
  }

  /** A logical row that ends under none of the ids it arrived with gave each of them up to a row
      that stands before it in the result. */
  lemma {:induction false} AssignKeeps(c: Codec, es: seq<Entry>, claimed: set<Id>, taken: set<Id>, i: nat, id: Id)
    requires i < |es| && es[i].row.Obj? && id in es[i].ids && id !in claimed
    requires forall e | e in es :: e.row.Bare? ==> e.ids == [] && e.baseId.None?
    ensures var rows := Assign(c, es, claimed, taken);
      KeepsAnId(es[i], rows[i]) || exists j :: 0 <= j < i && RowId(rows[j]) == Some(id)
  {
    if i == 0 {
      ChoiceKeeps(c, es[0], claimed, taken, id);
    } else {
      var chosen := Choice(c, es[0], claimed, taken);
      var rest := Assign(c, es[1..], Added(claimed, chosen), Added(taken, chosen));
      var rows := Assign(c, es, claimed, taken);
      assert rows == [WithId(es[0].row, chosen)] + rest;
      if chosen == Some(id) {
        assert es[0] in es;
        assert RowId(rows[0]) == Some(id);
      } else {
        AssignKeeps(c, es[1..], Added(claimed, chosen), Added(taken, chosen), i - 1, id);
        if !KeepsAnId(es[i], rows[i]) {
          assert rows[i] == rest[i - 1];
          var j :| 0 <= j < i - 1 && RowId(rest[j]) == Some(id);
          assert rows[j + 1] == rest[j];
        }
      }
    }
  }

  // ---------------------------------------------------------------- base stability

  /** Cluster `cu` stands for base row `row` at position `i`. */
  ghost predicate StandsFor(cu: Cluster, row: Row, i: nat) {
    && cu.basePos == Some(i) && cu.baseId == RowId(row)
    && RowKey(cu.row) == RowKey(row) && Carries(cu.row, row)
    && (RowId(row).None? ==> cu.ids == [])
  }

  ghost predicate BaseInPlace(cl: seq<Cluster>, base: seq<Row>) {
    && |base| <= |cl|
    && (forall i | 0 <= i < |base| :: StandsFor(cl[i], base[i], i))
    && (forall i | |base| <= i < |cl| :: cl[i].basePos.None?)
  }

  ghost predicate DistinctKeys(rows: seq<Row>) {
    forall i, j | 0 <= i < j < |rows| :: RowKey(rows[i]) != RowKey(rows[j])
  }

  lemma {:induction false} StandsStill(c: Codec, cu: Cluster, row: Row, i: nat, a: Arrival)
    requires StandsFor(cu, row, i) && SameRow(cu.row, a.row)
    ensures StandsFor(NoteRow(c, cu, a), row, i)
  {
    NoteRowCarries(c, cu, a);
    if cu.row.Obj? && a.row.Obj? && cu.row != a.row {
      MergePairCarries(c, cu.row, a.row);
    }
  }

  /** No two of these rows could be one row. */
  ghost predicate ApartRows(rows: seq<Row>) {
    forall i, j | 0 <= i < j < |rows| :: !SameRow(rows[i], rows[j])
  }

  lemma {:induction false} BuildBase(c: Codec, base: seq<Row>)
    requires ApartRows(base)
    ensures BaseInPlace(Build(c, BaseArrivals(base)), base)
    ensures |Build(c, BaseArrivals(base))| == |base|
    ensures forall i | 0 <= i < |base| :: Build(c, BaseArrivals(base))[i].row == base[i]
  {
    if base != [] {
      var front, last := base[..|base| - 1], base[|base| - 1];
      BuildBase(c, front);
      var arrivals := BaseArrivals(base);
      assert arrivals[..|arrivals| - 1] == BaseArrivals(front);
      BaseGrows(c, Build(c, BaseArrivals(front)), front, last);
      LastSplit(base);
    }
  }

  lemma {:induction false} BaseGrows(c: Codec, cl: seq<Cluster>, front: seq<Row>, last: Row)
    requires BaseInPlace(cl, front) && |cl| == |front| && ApartRows(front + [last])
    requires forall i | 0 <= i < |front| :: cl[i].row == front[i]
    ensures var r := Absorb(c, cl, Arrival(last, Some(|front|)));
      && BaseInPlace(r, front + [last]) && |r| == |front| + 1
      && forall i | 0 <= i < |r| :: r[i].row == (front + [last])[i]
  {
    forall i | 0 <= i < |cl| ensures !SameRow(cl[i].row, last) {
      assert (front + [last])[i] == front[i] && (front + [last])[|front|] == last;
    }
    NewBaseCluster(c, cl, last, |front|);
  }

  lemma {:induction false} NewBaseCluster(c: Codec, cl: seq<Cluster>, row: Row, pos: nat)
    requires forall i | 0 <= i < |cl| :: !SameRow(cl[i].row, row)
    ensures var r := Absorb(c, cl, Arrival(row, Some(pos)));
      |r| == |cl| + 1 && r[..|cl|] == cl && StandsFor(r[|cl|], row, pos) && r[|cl|].row == row
  {
    assert FindHit(cl, row).None?;
  }

  lemma {:induction false} BuildSide(c: Codec, base: seq<Row>, side: seq<Row>)
    requires ApartRows(base)
    ensures BaseInPlace(Build(c, BaseArrivals(base) + SideArrivals(side)), base)
  {
    if side == [] {
      assert BaseArrivals(base) + SideArrivals(side) == BaseArrivals(base);
      BuildBase(c, base);
    } else {
      var front, a := side[..|side| - 1], Arrival(side[|side| - 1], None);
      BuildSide(c, base, front);
      var arrivals := BaseArrivals(base) + SideArrivals(side);
      assert arrivals[..|arrivals| - 1] == BaseArrivals(base) + SideArrivals(front);
      SideKeepsBase(c, Build(c, BaseArrivals(base) + SideArrivals(front)), base, a);
    }
  }

  lemma {:induction false} SideKeepsBase(c: Codec, cl: seq<Cluster>, base: seq<Row>, a: Arrival)
    requires BaseInPlace(cl, base) && a.pos.None?
    ensures BaseInPlace(Absorb(c, cl, a), base)
  {
    var hit := FindHit(cl, a.row);
    if hit.Some? && hit.value < |base| {
      StandsStill(c, cl[hit.value], base[hit.value], hit.value, a);
    }
    forall i | 0 <= i < |base| ensures StandsFor(Absorb(c, cl, a)[i], base[i], i) {
      assert StandsFor(cl[i], base[i], i);
    }
  }

  /** Base clusters come first, in base order. */
  lemma {:induction false} BaseFirst(c: Codec, cl: seq<Cluster>, base: seq<Row>)
    requires BaseInPlace(cl, base)
    ensures Ordered(c, cl) == cl[..|base|] + SortBy(ContentLe(c), cl[|base|..])
  {
    var front, back := cl[..|base|], cl[|base|..];
    forall i | 0 <= i < |front| ensures front[i].basePos == Some(i) {
      assert StandsFor(cl[i], base[i], i);
    }
    OrderedSplit(c, front, back);
    assert cl == front + back;
    assert SortedBy(BasePosLe, front);
    SortedStays(BasePosLe, front);
  }

  lemma {:induction false} OrderedSplit(c: Codec, front: seq<Cluster>, back: seq<Cluster>)
    requires forall cu | cu in front :: cu.basePos.Some?
    requires forall cu | cu in back :: cu.basePos.None?
    ensures Ordered(c, front + back) == SortBy(BasePosLe, front) + SortBy(ContentLe(c), back)
  {
    FilterSplit(InBase, front, back);
    FilterSplit(IsNew, back, front);
  }

  lemma {:induction false} DistinctPrefix<T(!new)>(a: seq<T>, b: seq<T>)
    requires NoDuplicates(a)
    ensures |a| <= |Distinct(a + b)| && Distinct(a + b)[..|a|] == a
  {
    if b == [] {
      assert a + b == a;
      if a != [] {
        var front := a[..|a| - 1];
        DistinctPrefix(front, []);
        assert front + [] == front;
        assert Distinct(front) == front by { DistinctStays(front); }
        DistinctStays(a);
      }
    } else {
      DistinctPrefix(a, b[..|b| - 1]);
      assert (a + b)[..|a + b| - 1] == a + b[..|b| - 1];
    }
  }

  lemma {:induction false} DistinctStays<T(!new)>(a: seq<T>)
    requires NoDuplicates(a)
    ensures Distinct(a) == a
  {
    if a != [] {
      DistinctStays(a[..|a| - 1]);
    }
  }

  lemma {:induction false} DistinctTailSorted<T(!new)>(le: (T, T) -> bool, a: seq<T>, b: seq<T>)
    requires NoDuplicates(a) && SortedBy(le, b)
    ensures |a| <= |Distinct(a + b)| && Distinct(a + b)[..|a|] == a
    ensures SortedBy(le, Distinct(a + b)[|a|..])
    ensures forall x | x in Distinct(a + b)[|a|..] :: x in b && x !in a
  {
    DistinctPrefix(a, b);
    if b == [] {
      DistinctStays(a);
      assert a + b == a;
    } else {
      var front, last := b[..|b| - 1], b[|b| - 1];
      DistinctTailSorted(le, a, front);
      assert (a + b)[..|a + b| - 1] == a + front;
      assert (a + b)[|a + b| - 1] == last && b == front + [last];
      var d := Distinct(a + front);
      assert d == a + d[|a|..];
      if last !in d {
        assert Distinct(a + b) == d + [last];
        assert Distinct(a + b)[|a|..] == d[|a|..] + [last];
        LastIsLargest(le, front, last, d[|a|..]);
      }
    }
  }

  lemma {:induction false} LastIsLargest<T(!new)>(le: (T, T) -> bool, front: seq<T>, last: T, s: seq<T>)
    requires SortedBy(le, front + [last]) && SortedBy(le, s) && forall x | x in s :: x in front
    ensures SortedBy(le, s + [last])
  {
    forall x | x in s ensures le(x, last) {
      var i :| 0 <= i < |front| && front[i] == x;
      assert (front + [last])[i] == x && (front + [last])[|front|] == last;
    }
  }

  /** A cluster that shares its content with nobody is a group of its own. */
  lemma {:induction false} AloneInGroup(s: seq<Cluster>, i: nat)
    requires i < |s|
    requires forall j | 0 <= j < |s| && j != i :: Payload(s[j].row) != Payload(s[i].row)
    ensures Group(s, Payload(s[i].row)) == [s[i]]
  {
    var keep, x := PaysAs(Payload(s[i].row)), s[i];
    SplitAt(s, i);
    FilterNone(keep, s[..i]);
    FilterSnoc(keep, s[..i], x);
    FilterNone(keep, s[i + 1..]);
    FilterAppend(keep, s[..i] + [x], s[i + 1..]);
    assert [] + [x] == [x] && [x] + [] == [x];
  }

  lemma {:induction false} LogicalPrefix(ordered: seq<Cluster>, keys: seq<Row>, n: nat)
    requires n <= |keys|
    ensures Logical(ordered, keys[..n]) <= Logical(ordered, keys)
    decreases |keys|
  {
    if n < |keys| {
      LogicalPrefix(ordered, keys[..|keys| - 1], n);
      assert keys[..|keys| - 1][..n] == keys[..n];
    } else {
      assert keys[..n] == keys;
    }
  }

  lemma {:induction false} LogicalSingles(ordered: seq<Cluster>, n: nat)
    requires n <= |ordered|
    requires forall i, j | 0 <= i < n && 0 <= j < |ordered| && j != i ::
        Payload(ordered[j].row) != Payload(ordered[i].row)
    ensures Logical(ordered, MapSeq(PayloadOf, ordered[..n])) == MapSeq(Single, ordered[..n])
  {
    if n > 0 {
      var front, last := ordered[..n - 1], ordered[n - 1];
      LogicalSingles(ordered, n - 1);
      AloneInGroup(ordered, n - 1);
      OneMoreSingle(ordered, MapSeq(PayloadOf, front), MapSeq(Single, front), last);
      assert ordered[..n] == front + [last];
      MapSnoc(PayloadOf, front, last);
      MapSnoc(Single, front, last);
    }
  }

  lemma {:induction false} OneMoreSingle(ordered: seq<Cluster>, keys: seq<Row>, es: seq<Entry>, last: Cluster)
    requires Logical(ordered, keys) == es && Group(ordered, Payload(last.row)) == [last]
    ensures Logical(ordered, keys + [Payload(last.row)]) == es + [Single(last)]
  {
    LogicalSnoc(ordered, keys, Payload(last.row));
    SingleEntry(ordered, last);
  }

  lemma {:induction false} MapSnoc<S, T>(f: S -> T, s: seq<S>, x: S)
    ensures MapSeq(f, s + [x]) == MapSeq(f, s) + [f(x)]
  {
  }

  lemma {:induction false} SingleEntry(ordered: seq<Cluster>, cu: Cluster)
    ensures EntriesOf(ordered, [cu]) == [Single(cu)]
  {
  }

  lemma {:induction false} AssignBase(c: Codec, es: seq<Entry>, base: seq<Row>, claimed: set<Id>, taken: set<Id>)
    requires |base| <= |es| && DistinctKeys(base)
    requires forall i | 0 <= i < |base| ::
      es[i].baseId == RowId(base[i]) && Carries(es[i].row, base[i])
          && (RowId(base[i]).None? ==> es[i].ids == [] && RowId(es[i].row).None?)
    requires forall i | 0 <= i < |base| :: RowId(base[i]).Some? ==> base[i].id.value !in claimed
    ensures forall i | 0 <= i < |base| ::
      RowId(Assign(c, es, claimed, taken)[i]) == RowId(base[i]) && Carries(Assign(c, es, claimed, taken)[i], base[i])
  {
    if base != [] {
      var id := Choice(c, es[0], claimed, taken);
      assert id == RowId(base[0]);
      forall i | 1 <= i < |base| && RowId(base[i]).Some? ensures base[i].id.value !in Added(claimed, id) {
        assert RowKey(base[0]) != RowKey(base[i]);
      }
      AssignBase(c, es[1..], base[1..], Added(claimed, id), Added(taken, id));
      var rest := Assign(c, es[1..], Added(claimed, id), Added(taken, id));
      forall i | 0 <= i < |base|
        ensures RowId(Assign(c, es, claimed, taken)[i]) == RowId(base[i])
        ensures Carries(Assign(c, es, claimed, taken)[i], base[i])
      {
        if i > 0 {
          assert base[i] == base[1..][i - 1];
          assert Assign(c, es, claimed, taken)[i] == rest[i - 1];
        }
      }
    }
  }

  /** No row the merge base knows ends up with the content of another row of the result. */
  ghost predicate BaseContentsAlone(c: Codec, base: seq<Row>, ours: seq<Row>, theirs: seq<Row>) {
    var cl := Build(c, Arrivals(base, ours, theirs));
    forall i, j | 0 <= i < |cl| && 0 <= j < |cl| && i != j && cl[i].basePos.Some? ::
      Payload(cl[i].row) != Payload(cl[j].row)
  }

  /** BASE STABILITY: with distinct base ids, and no base row left looking like another row, the result starts
      with the base rows in base order, each under its own id, whatever the two sides appended or edited. */
  lemma {:induction false} BaseStable(c: Codec, base: seq<Row>, ours: seq<Row>, theirs: seq<Row>)
    requires DistinctKeys(base) && BaseContentsAlone(c, base, ours, theirs)
    ensures |base| <= |Merged(c, base, ours, theirs)|
    ensures forall i | 0 <= i < |base| ::
      Carries(Merged(c, base, ours, theirs)[i], base[i]) && RowId(Merged(c, base, ours, theirs)[i]) == RowId(base[i])
  {
    var cl := Build(c, Arrivals(base, ours, theirs));
    assert Arrivals(base, ours, theirs) == BaseArrivals(base) + SideArrivals(ours + theirs);
    BuildSide(c, base, ours + theirs);
    BaseFirst(c, cl, base);
    BaseContentsLead(c, cl, base);
    BaseEntries(c, cl, base, Ordered(c, cl));
  }

  lemma {:induction false} BehindIndex(cl: seq<Cluster>, n: nat, cu: Cluster) returns (k: nat)
    requires n <= |cl| && cu in cl[n..]
    ensures n <= k < |cl| && cl[k] == cu
  {
    var i :| 0 <= i < |cl[n..]| && cl[n..][i] == cu;
    k := n + i;
  }

  lemma {:induction false} BaseContentsLead(c: Codec, cl: seq<Cluster>, base: seq<Row>)
    requires BaseInPlace(cl, base) && Ordered(c, cl) == cl[..|base|] + SortBy(ContentLe(c), cl[|base|..])
    requires forall i, j | 0 <= i < |cl| && 0 <= j < |cl| && i != j && cl[i].basePos.Some? ::
        Payload(cl[i].row) != Payload(cl[j].row)
    ensures var ordered := Ordered(c, cl);
      && |base| <= |ordered| && ordered[..|base|] == cl[..|base|]
      && forall i, j | 0 <= i < |base| && 0 <= j < |ordered| && j != i ::
          Payload(ordered[j].row) != Payload(ordered[i].row)
  {
    var ordered, n := Ordered(c, cl), |base|;
    var back := SortBy(ContentLe(c), cl[n..]);
    SortPermutes(ContentLe(c), cl[n..]);
    forall i, j | 0 <= i < n && 0 <= j < |ordered| && j != i
      ensures Payload(ordered[j].row) != Payload(ordered[i].row)
    {
      assert StandsFor(cl[i], base[i], i);
      if j >= n {
        assert ordered[j] == back[j - n] && back[j - n] in back;
        var k := BehindIndex(cl, n, ordered[j]);
      }
    }
  }

  /** Leading clusters that share their content with nobody are the leading entries. */
  lemma {:induction false} LeadingSingles(ordered: seq<Cluster>, n: nat)
    requires n <= |ordered|
    requires forall i, j | 0 <= i < n && 0 <= j < |ordered| && j != i ::
        Payload(ordered[j].row) != Payload(ordered[i].row)
    ensures MapSeq(Single, ordered[..n]) <= Logical(ordered, Contents(ordered))
  {
    var pays := MapSeq(PayloadOf, ordered);
    var keys := Contents(ordered);
    assert pays == pays[..n] + pays[n..];
    DistinctPrefix(pays[..n], pays[n..]);
    assert keys[..n] == pays[..n] == MapSeq(PayloadOf, ordered[..n]);
    LogicalSingles(ordered, n);
    LogicalPrefix(ordered, keys, n);
  }

  lemma {:induction false} BaseEntries(c: Codec, cl: seq<Cluster>, base: seq<Row>, ordered: seq<Cluster>)
    requires BaseInPlace(cl, base) && DistinctKeys(base)
    requires |base| <= |ordered| && ordered[..|base|] == cl[..|base|]
    requires forall i, j | 0 <= i < |base| && 0 <= j < |ordered| && j != i ::
        Payload(ordered[j].row) != Payload(ordered[i].row)
    ensures |base| <= |Settle(c, ordered)|
    ensures forall i | 0 <= i < |base| ::
      Carries(Settle(c, ordered)[i], base[i]) && RowId(Settle(c, ordered)[i]) == RowId(base[i])
  {
    var n := |base|;
    LeadingSingles(ordered, n);
    var keys := Contents(ordered);
    var es := Logical(ordered, keys);
    forall i | 0 <= i < n
      ensures es[i].baseId == RowId(base[i]) && Carries(es[i].row, base[i])
      ensures RowId(base[i]).None? ==> es[i].ids == [] && RowId(es[i].row).None?
    {
      assert es[i] == Single(ordered[i]) && ordered[i] == cl[i];
      assert StandsFor(cl[i], base[i], i);
    }
    AssignBase(c, es, base, {}, InitialTaken(ordered));
  }
}
