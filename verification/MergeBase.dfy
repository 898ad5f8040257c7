/** Which base rows keep their ids: the exact condition, and boards that fail it. */
module MergeBase {
  import opened Prelude
  import opened BoardRows
  import opened IdSpace
  import opened MergeSpec
  import opened MergeLossless
  import opened MergeIds
  import opened MergeTies
  import opened MergePrefixed
  import opened MergeLimits

  // ---------------------------------------------------------------- leaders

  /** Entries at the places `at` come from the base, each with its own id of `y`; every other entry that stands before
      one of them has no use for its id. */
  ghost predicate Led(es: seq<Entry>, at: seq<nat>, y: seq<Id>) {
    && |at| == |y| && NoDuplicates(y) && (forall i, j | 0 <= i < j < |at| :: at[i] < at[j])
    && (forall i | 0 <= i < |at| ::
        at[i] < |es| && es[at[i]].baseId == Some(y[i]) && es[at[i]].row.Obj? && !IsDerived(y[i]))
    && (forall s, j | 0 <= j < |at| && 0 <= s < at[j] :: s in at || NeverTakes(es[s], y[j]))
  }

  ghost predicate Waiting(at: seq<nat>, y: seq<Id>, t: nat, claimed: set<Id>) {
    |at| == |y| && forall j | 0 <= j < |at| && t <= at[j] :: y[j] !in claimed
  }

  /** The entry at `t` leaves the ids of the leaders behind it alone. */
  lemma {:induction false} OthersWait(c: Codec, es: seq<Entry>, at: seq<nat>, y: seq<Id>, t: nat, claimed: set<Id>,
          taken: set<Id>, j: nat)
    requires Led(es, at, y) && Waiting(at, y, t, claimed) && t < |es| && j < |at| && t < at[j]
    ensures Choice(c, es[t], claimed, taken) != Some(y[j])
  {
    if t in at {
      var i :| 0 <= i < |at| && at[i] == t;
      assert es[t].baseId == Some(y[i]) && y[i] !in claimed;
      assert i != j && y[i] != y[j];
    } else {
      ChoiceNot(c, es[t], claimed, taken, y[j]);
    }
  }

  lemma {:induction false} StillWaiting(c: Codec, es: seq<Entry>, at: seq<nat>, y: seq<Id>, t: nat, claimed: set<Id>,
          taken: set<Id>)
    requires Led(es, at, y) && Waiting(at, y, t, claimed) && t < |es|
    ensures Waiting(at, y, t + 1, Added(claimed, Choice(c, es[t], claimed, taken)))
  {
    forall j | 0 <= j < |at| && t + 1 <= at[j] ensures y[j] !in Added(claimed, Choice(c, es[t], claimed, taken)) {
      OthersWait(c, es, at, y, t, claimed, taken, j);
    }
  }

  lemma {:induction false} LeaderTakes(c: Codec, e: Entry, claimed: set<Id>, taken: set<Id>, x: Id)
    requires e.baseId == Some(x) && e.row.Obj? && x !in claimed
    ensures Choice(c, e, claimed, taken) == Some(x) && RowId(WithId(e.row, Some(x))) == Some(x)
  {
  }

  lemma {:induction false} LeaderFree(es: seq<Entry>, at: seq<nat>, y: seq<Id>, claimed: set<Id>, j: nat)
    requires Led(es, at, y) && j < |at| && j < |y| && Waiting(at, y, at[j], claimed)
    ensures at[j] < |es| && es[at[j]].baseId == Some(y[j]) && es[at[j]].row.Obj? && y[j] !in claimed
  {
  }

  /** Every leader ends under its own id. */
  lemma {:induction false} LeadersKeep(c: Codec, es: seq<Entry>, at: seq<nat>, y: seq<Id>, t: nat, claimed: set<Id>,
          taken: set<Id>, j: nat)
    requires Led(es, at, y) && Waiting(at, y, t, claimed) && j < |at| && j < |y| && t <= at[j] < |es|
    ensures RowId(Assign(c, es[t..], claimed, taken)[at[j] - t]) == Some(y[j])
    decreases at[j] - t
  {
    hide *;
    DropTail(c, es, t, claimed, taken, at[j]);
    if at[j] == t {
      LeaderFree(es, at, y, claimed, j);
      LeaderTakes(c, es[t], claimed, taken, y[j]);
    } else {
      StillWaiting(c, es, at, y, t, claimed, taken);
      LeadersKeep(c, es, at, y, t + 1, Added(claimed, Choice(c, es[t], claimed, taken)),
                  Added(taken, Choice(c, es[t], claimed, taken)), j);
    }
  }

  // ---------------------------------------------------------------- an intruder

  lemma {:induction false} ChoiceNotClaimed(c: Codec, e: Entry, claimed: set<Id>, taken: set<Id>, x: Id)
    requires x in claimed && !IsDerived(x) && (Like(e).Some? ==> Numeric(Like(e).value))
    ensures Choice(c, e, claimed, taken) != Some(x)
    ensures RowId(WithId(e.row, Choice(c, e, claimed, taken))) != Some(x)
  {
    if OwnChoice(e, claimed).None? && Like(e).Some? {
      FreshIsDerived(c, Like(e), c.digest(Payload(e.row)), taken);
    }
  }

  /** A claimed id that was not derived goes to nobody else. */
  lemma {:induction false} NeverAgain(c: Codec, es: seq<Entry>, claimed: set<Id>, taken: set<Id>, x: Id, s: nat)
    requires x in claimed && !IsDerived(x) && s < |es|
    requires forall e | e in es :: Like(e).Some? ==> Numeric(Like(e).value)
    ensures RowId(Assign(c, es, claimed, taken)[s]) != Some(x)
  {
    var id := Choice(c, es[0], claimed, taken);
    assert es[0] in es;
    if s == 0 {
      ChoiceNotClaimed(c, es[0], claimed, taken, x);
    } else {
      AssignTail(c, es, claimed, taken, s);
      NeverAgain(c, es[1..], Added(claimed, id), Added(taken, id), x, s - 1);
    }
  }

  /** Behind an entry with the one candidate `x` nobody gets `x`. */
  lemma {:induction false} IntruderBlocks(c: Codec, es: seq<Entry>, claimed: set<Id>, taken: set<Id>, r: nat, x: Id,
          s: nat)
    requires r < s < |es| && es[r].ids == [x] && es[r].baseId.None? && !IsDerived(x)
    requires forall e | e in es :: Like(e).Some? ==> Numeric(Like(e).value)
    ensures RowId(Assign(c, es, claimed, taken)[s]) != Some(x)
  {
    hide *;
    var id := Choice(c, es[0], claimed, taken);
    AssignTail(c, es, claimed, taken, s);
    if r == 0 {
      TakesOrTaken(c, es[0], claimed, taken, x);
      NeverAgain(c, es[1..], Added(claimed, id), Added(taken, id), x, s - 1);
    } else {
      IntruderBlocks(c, es[1..], Added(claimed, id), Added(taken, id), r - 1, x, s - 1);
    }
  }

  lemma {:induction false} TakesOrTaken(c: Codec, e: Entry, claimed: set<Id>, taken: set<Id>, x: Id)
    requires e.ids == [x] && e.baseId.None?
    ensures x in Added(claimed, Choice(c, e, claimed, taken))
  {
    SortedStays(IdLe, e.ids);
  }

  // ---------------------------------------------------------------- one id a cluster

  /** No two ids of the board print alike, as a number and a string could. */
  ghost predicate OneSpelling(ids: set<Id>) {
    forall x, y | x in ids && y in ids && IdText(x) == IdText(y) :: x == y
  }

  ghost predicate Spelt(cu: Cluster) {
    && (forall x | x in ClusterIds(cu) :: RowKey(cu.row) == ById(IdText(x)))
    && (RowKey(cu.row).ByContent? ==> RowId(cu.row).None?)
  }

  /** The ids of a noted row are the cluster's and its own. */
  lemma {:induction false} NotedId(c: Codec, cu: Cluster, a: Arrival, x: Id)
    requires x in ClusterIds(NoteRow(c, cu, a))
    ensures x in ClusterIds(cu) || RowId(a.row) == Some(x)
  {
    var s := set y | y in ClusterIds(cu) + Listed(RowId(a.row));
    hide NoteRow, ClusterIds;
    NoteRowIdsWithin(c, cu, a, s);
  }

  lemma {:induction false} VersionKey(c: Codec, cu: Cluster, a: Arrival)
    requires SameRow(cu.row, a.row)
    ensures RowKey(cu.row).ById? ==> RowKey(NoteRow(c, cu, a).row) == RowKey(cu.row)
    ensures RowKey(cu.row).ByContent? ==> RowId(NoteRow(c, cu, a).row).None?
    ensures RowKey(cu.row) == RowKey(a.row)
  {
    if cu.row.Obj? && a.row.Obj? {
      MergePairCarries(c, cu.row, a.row);
    }
  }

  lemma {:induction false} NoteRowSpelt(c: Codec, cu: Cluster, a: Arrival)
    requires Spelt(cu) && SameRow(cu.row, a.row)
    ensures Spelt(NoteRow(c, cu, a))
  {
    VersionKey(c, cu, a);
    var now := NoteRow(c, cu, a);
    hide NoteRow, ClusterIds, SameRow;
    forall x | x in ClusterIds(now) ensures RowKey(now.row) == ById(IdText(x)) {
      NotedId(c, cu, a, x);
    }
  }

  lemma {:induction false} BuildSpelt(c: Codec, arrivals: seq<Arrival>)
    ensures forall cu | cu in Build(c, arrivals) :: Spelt(cu)
  {
    if arrivals != [] {
      var front, last := arrivals[..|arrivals| - 1], arrivals[|arrivals| - 1];
      BuildSpelt(c, front);
      AbsorbSpelt(c, Build(c, front), last);
    }
  }

  lemma {:induction false} AbsorbSpelt(c: Codec, cl: seq<Cluster>, a: Arrival)
    requires forall cu | cu in cl :: Spelt(cu)
    ensures forall cu | cu in Absorb(c, cl, a) :: Spelt(cu)
  {
    var hit := FindHit(cl, a.row);
    SpeltOpens(a.row);
    NoteRowSpelt(c, if hit.Some? then cl[hit.value] else NewCluster(a.row), a);
    hide Spelt, NoteRow, FindHit;
  }

  lemma {:induction false} SpeltOpens(row: Row)
    ensures Spelt(NewCluster(row)) && SameRow(row, row)
  {
  }

  lemma {:induction false} OneId(cu: Cluster, s: set<Id>, x: Id)
    requires Spelt(cu) && IdsWithin(cu, s) && OneSpelling(s) && x in ClusterIds(cu)
    ensures ClusterIds(cu) == [x]
  {
    var ids := ClusterIds(cu);
    forall i | 0 <= i < |ids| ensures ids[i] == x {
      assert ids[i] in ids;
    }
    AllTheSame(ids, x);
  }

  // ---------------------------------------------------------------- where base rows stand

  ghost predicate BaseApart(cl: seq<Cluster>, n: nat) {
    n <= |cl| && forall i, j | 0 <= i < j < n :: Payload(cl[i].row) != Payload(cl[j].row)
  }

  /** The base contents are the first contents, and each base cluster leads its group. */
  lemma {:induction false} BaseKeys(front: seq<Cluster>, back: seq<Cluster>)
    requires BaseApart(front, |front|)
    ensures var keys := Contents(front + back);
      |front| <= |keys| && forall i | 0 <= i < |front| :: keys[i] == Payload(front[i].row)
  {
    var pays := MapSeq(PayloadOf, front);
    MapAppend(PayloadOf, front, back);
    DistinctPrefix(pays, MapSeq(PayloadOf, back));
    var keys := Contents(front + back);
    forall i | 0 <= i < |front| ensures keys[i] == Payload(front[i].row) {
      assert keys[..|front|][i] == pays[i];
    }
  }

  lemma {:induction false} BaseGroup(front: seq<Cluster>, back: seq<Cluster>, i: nat)
    requires BaseApart(front, |front|) && i < |front|
    ensures Group(front + back, Payload(front[i].row)) == [front[i]] + Filter(PaysAs(Payload(front[i].row)), back)
  {
    var p := Payload(front[i].row);
    FilterAppend(PaysAs(p), front, back);
    AloneInGroup(front, i);
  }

  lemma {:induction false} LeadEntry(front: seq<Cluster>, back: seq<Cluster>, i: nat)
    requires BaseApart(front, |front|) && i < |front|
    ensures var es := EntriesOf(front + back, Group(front + back, Payload(front[i].row)));
      es != [] && es[0].baseId == front[i].baseId && es[0].row == front[i].row
  {
    BaseGroup(front, back, i);
    hide Group, Collapses, ClusterIds, GroupIds;
  }

  /** Behind the leader of a group that is left apart stand new clusters. */
  lemma {:induction false} LaterEntry(front: seq<Cluster>, back: seq<Cluster>, i: nat, k: nat)
    requires BaseApart(front, |front|) && i < |front|
    requires 0 < k < |EntriesOf(front + back, Group(front + back, Payload(front[i].row)))|
    ensures var g := Group(front + back, Payload(front[i].row));
      && !Collapses(front + back, g) && k < |g| && g[k] in back && Payload(g[k].row) == Payload(front[i].row)
      && EntriesOf(front + back, g)[k] == Single(g[k])
  {
    BaseGroup(front, back, i);
    var p := Payload(front[i].row);
    var g := Group(front + back, p);
    assert g[k] == Filter(PaysAs(p), back)[k - 1];
    assert g[k] in Filter(PaysAs(p), back);
  }

  lemma {:induction false} OffsetGrows(ordered: seq<Cluster>, keys: seq<Row>, i: nat, j: nat)
    requires i < j <= |keys|
    ensures Offset(ordered, keys, i) + |EntriesOf(ordered, Group(ordered, keys[i]))| <= Offset(ordered, keys, j)
    decreases j
  {
    hide *;
    TakeSnoc(keys, j - 1);
    LogicalSnoc(ordered, keys[..j - 1], keys[j - 1]);
    OffsetMeans(ordered, keys, j - 1);
    OffsetMeans(ordered, keys, j);
    if i < j - 1 {
      OffsetGrows(ordered, keys, i, j - 1);
    }
  }

  // ---------------------------------------------------------------- the board in question

  /** Base clusters of pairwise different contents, each under a base id of its own that no merge invented, and behind
      them clusters the base does not know. */
  ghost predicate BaseBoard(front: seq<Cluster>, back: seq<Cluster>) {
    && BaseApart(front, |front|)
    && (forall i | 0 <= i < |front| :: front[i].row.Obj? && front[i].baseId.Some? && !IsDerived(front[i].baseId.value))
    && (forall i, j | 0 <= i < j < |front| :: front[i].baseId != front[j].baseId)
    && (forall n | n in back :: n.baseId.None?)
  }

  /** Cluster `n` is emitted with the earlier base row `earlier`, whose content it shows, and carries the id the later
      base row `later` has held since the base. */
  ghost predicate Intrudes(ordered: seq<Cluster>, earlier: Cluster, later: Cluster, n: Cluster) {
    && later.baseId.Some? && later.baseId.value in ClusterIds(n)
    && Payload(n.row) == Payload(earlier.row) && !Collapses(ordered, Group(ordered, Payload(earlier.row)))
  }

  ghost predicate NobodyIntrudes(front: seq<Cluster>, back: seq<Cluster>) {
    forall i, j, n | 0 <= i < j < |front| && n in back :: !Intrudes(front + back, front[i], front[j], n)
  }

  function Places(ordered: seq<Cluster>, keys: seq<Row>, n: nat): (at: seq<nat>)
    requires n <= |keys|
    ensures |at| == n && forall i | 0 <= i < n :: at[i] == Offset(ordered, keys, i)
  {
    seq(n, i requires 0 <= i < n => Offset(ordered, keys, i))
  }

  ghost function BaseIds(front: seq<Cluster>): (ids: seq<Id>)
    requires forall i | 0 <= i < |front| :: front[i].baseId.Some?
    ensures |ids| == |front| && forall i | 0 <= i < |front| :: front[i].baseId == Some(ids[i])
  {
    seq(|front|, i requires 0 <= i < |front| => front[i].baseId.value)
  }

  ghost predicate LikesNumbers(es: seq<Entry>) {
    forall e | e in es :: Like(e).Some? ==> Numeric(Like(e).value)
  }

  lemma {:induction false} LeaderAt(front: seq<Cluster>, back: seq<Cluster>, keys: seq<Row>, i: nat)
    requires BaseBoard(front, back) && keys == Contents(front + back) && i < |front| <= |keys|
    requires keys[i] == Payload(front[i].row)
    ensures var es, at := Logical(front + back, keys), Offset(front + back, keys, i);
      && EntriesOf(front + back, Group(front + back, keys[i])) != []
      && at < |es| && es[at].baseId == front[i].baseId && es[at].row == front[i].row
  {
    LeadEntry(front, back, i);
    EntryAt(front + back, keys, i, 0);
  }

  lemma {:induction false} PlacesGrow(front: seq<Cluster>, back: seq<Cluster>, keys: seq<Row>, i: nat, j: nat)
    requires BaseBoard(front, back) && keys == Contents(front + back) && i < j < |front| <= |keys|
    requires keys[i] == Payload(front[i].row)
    ensures Offset(front + back, keys, i) < Offset(front + back, keys, j)
  {
    LeaderAt(front, back, keys, i);
    OffsetGrows(front + back, keys, i, j);
  }

  /** An entry before a leader is a leader itself, or a new row with no claim on the leader's id. */
  lemma {:induction false} EarlierEntry(front: seq<Cluster>, back: seq<Cluster>, keys: seq<Row>, s: nat, j: nat)
    returns (i: nat)
    requires BaseBoard(front, back) && NobodyIntrudes(front, back) && keys == Contents(front + back)
    requires |front| <= |keys| && forall n | 0 <= n < |front| :: keys[n] == Payload(front[n].row)
    requires LikesNumbers(Logical(front + back, keys)) && j < |front|
    requires s < |Logical(front + back, keys)| && s < Offset(front + back, keys, j)
    ensures i < j
    ensures (s == Offset(front + back, keys, i) || NeverTakes(Logical(front + back, keys)[s], front[j].baseId.value))
  {
    var k;
    i, k := EntryPlace(front + back, keys, s);
    PlaceBefore(front + back, keys, i, k, j);
    if k > 0 {
      LaterEntry(front, back, i, k);
      var n := Group(front + back, keys[i])[k];
      assert !Intrudes(front + back, front[i], front[j], n);
      assert Logical(front + back, keys)[s] in Logical(front + back, keys);
      SingleNever(n, front[j].baseId.value);
    }
  }

  lemma {:induction false} SingleNever(n: Cluster, x: Id)
    requires n.baseId.None? && x !in ClusterIds(n) && (Like(Single(n)).Some? ==> Numeric(Like(Single(n)).value))
    ensures NeverTakes(Single(n), x)
  {
  }

  lemma {:induction false} PlaceBefore(ordered: seq<Cluster>, keys: seq<Row>, i: nat, k: nat, j: nat)
    requires i < |keys| && j < |keys| && Offset(ordered, keys, i) + k < Offset(ordered, keys, j)
    ensures i < j
  {
    hide *;
    if j < i {
      OffsetGrows(ordered, keys, j, i);
    }
  }

  lemma {:induction false} LeadersStand(front: seq<Cluster>, back: seq<Cluster>, keys: seq<Row>, at: seq<nat>,
          y: seq<Id>)
    requires BaseBoard(front, back) && keys == Contents(front + back)
    requires |front| <= |keys| && forall n | 0 <= n < |front| :: keys[n] == Payload(front[n].row)
    requires at == Places(front + back, keys, |front|) && |y| == |front|
    requires forall i | 0 <= i < |front| :: front[i].baseId == Some(y[i])
    ensures forall i, j | 0 <= i < j < |at| :: at[i] < at[j]
    ensures var es := Logical(front + back, keys);
      forall i | 0 <= i < |at| :: at[i] < |es| && es[at[i]].baseId == Some(y[i]) && es[at[i]].row == front[i].row
  {
    hide Logical, BaseBoard, Contents, Offset, Payload, Places;
    forall i, j | 0 <= i < j < |at| ensures at[i] < at[j] {
      PlacesGrow(front, back, keys, i, j);
    }
    forall i | 0 <= i < |at|
      ensures at[i] < |Logical(front + back, keys)|
      ensures Logical(front + back, keys)[at[i]].baseId == Some(y[i])
      ensures Logical(front + back, keys)[at[i]].row == front[i].row
    {
      LeaderAt(front, back, keys, i);
    }
  }

  lemma {:induction false} OthersStand(front: seq<Cluster>, back: seq<Cluster>, keys: seq<Row>, at: seq<nat>,
          y: seq<Id>, s: nat, j: nat)
    requires BaseBoard(front, back) && NobodyIntrudes(front, back) && keys == Contents(front + back)
    requires |front| <= |keys| && forall n | 0 <= n < |front| :: keys[n] == Payload(front[n].row)
    requires LikesNumbers(Logical(front + back, keys)) && j < |front| == |y| == |at| && front[j].baseId == Some(y[j])
    requires at == Places(front + back, keys, |front|) && s < at[j] < |Logical(front + back, keys)|
    ensures s in at || NeverTakes(Logical(front + back, keys)[s], y[j])
  {
    hide Logical, BaseBoard, Contents, Offset, Payload, Places, NobodyIntrudes, NeverTakes, LikesNumbers;
    var i := EarlierEntry(front, back, keys, s, j);
    assert at[i] in at;
  }

  lemma {:induction false} BaseIdsGood(front: seq<Cluster>, back: seq<Cluster>)
    requires BaseBoard(front, back)
    ensures forall i | 0 <= i < |front| ::
        front[i].row.Obj? && front[i].baseId.Some? && !IsDerived(front[i].baseId.value)
    ensures NoDuplicates(BaseIds(front))
  {
  }

  lemma {:induction false} LedIs(es: seq<Entry>, front: seq<Cluster>, at: seq<nat>, y: seq<Id>)
    requires |at| == |y| == |front| && NoDuplicates(y) && forall i, j | 0 <= i < j < |at| :: at[i] < at[j]
    requires forall i | 0 <= i < |front| ::
        front[i].row.Obj? && front[i].baseId == Some(y[i]) && !IsDerived(front[i].baseId.value)
    requires forall i | 0 <= i < |at| :: at[i] < |es| && es[at[i]].baseId == Some(y[i]) && es[at[i]].row == front[i].row
    requires forall s, j | 0 <= j < |at| && 0 <= s < at[j] :: s in at || NeverTakes(es[s], y[j])
    ensures Led(es, at, y)
  {
    hide NeverTakes, IsDerived;
  }

  lemma {:induction false} BoardIsLed(front: seq<Cluster>, back: seq<Cluster>, keys: seq<Row>)
    requires BaseBoard(front, back) && NobodyIntrudes(front, back) && keys == Contents(front + back)
    requires |front| <= |keys| && forall n | 0 <= n < |front| :: keys[n] == Payload(front[n].row)
    requires LikesNumbers(Logical(front + back, keys))
    ensures forall i | 0 <= i < |front| :: front[i].baseId.Some?
    ensures Led(Logical(front + back, keys), Places(front + back, keys, |front|), BaseIds(front))
  {
    hide *;
    BaseIdsGood(front, back);
    var es, at, y := Logical(front + back, keys), Places(front + back, keys, |front|), BaseIds(front);
    LeadersStand(front, back, keys, at, y);
    forall s, j | 0 <= j < |at| && 0 <= s < at[j] ensures s in at || NeverTakes(es[s], y[j]) {
      OthersStand(front, back, keys, at, y, s, j);
    }
    LedIs(es, front, at, y);
  }

  // ---------------------------------------------------------------- both directions

  ghost predicate Kept(rows: seq<Row>, id: Option<Id>, p: Row) {
    exists row :: row in rows && RowId(row) == id && Payload(row) == p
  }

  lemma {:induction false} KeptAt(rows: seq<Row>, i: nat)
    requires i < |rows|
    ensures Kept(rows, RowId(rows[i]), Payload(rows[i]))
  {
    assert rows[i] in rows;
  }

  lemma {:induction false} LeaderKept(c: Codec, front: seq<Cluster>, back: seq<Cluster>, keys: seq<Row>, j: nat)
    requires BaseBoard(front, back) && NobodyIntrudes(front, back) && keys == Contents(front + back)
    requires |front| <= |keys| && forall n | 0 <= n < |front| :: keys[n] == Payload(front[n].row)
    requires LikesNumbers(Logical(front + back, keys)) && j < |front|
    ensures Kept(Settle(c, front + back), front[j].baseId, Payload(front[j].row))
  {
    var es, at, y := Logical(front + back, keys), Places(front + back, keys, |front|), BaseIds(front);
    var taken := InitialTaken(front + back);
    BoardIsLed(front, back, keys);
    LeaderAt(front, back, keys, j);
    LeaderSettles(c, es, at, y, taken, j);
    AssignContents(c, es, {}, taken, at[j]);
    KeptAt(Assign(c, es, {}, taken), at[j]);
  }

  lemma {:induction false} LeaderSettles(c: Codec, es: seq<Entry>, at: seq<nat>, y: seq<Id>, taken: set<Id>, j: nat)
    requires Led(es, at, y) && j < |at| && j < |y| && at[j] < |es|
    ensures RowId(Assign(c, es, {}, taken)[at[j]]) == Some(y[j])
  {
    LeadersKeep(c, es, at, y, 0, {}, taken, j);
    assert es[0..] == es;
  }

  /** The intruder is emitted before the base row whose id it carries. */
  lemma {:induction false} IntruderAt(front: seq<Cluster>, back: seq<Cluster>, keys: seq<Row>, i: nat, j: nat,
          n: Cluster)
    returns (r: nat)
    requires keys == Contents(front + back) && i < j < |front| <= |keys|
    requires forall m | 0 <= m < |front| :: keys[m] == Payload(front[m].row)
    requires n in back && Intrudes(front + back, front[i], front[j], n)
    ensures r < Offset(front + back, keys, j) && r < |Logical(front + back, keys)|
    ensures Logical(front + back, keys)[r] == Single(n)
  {
    hide *;
    IntruderShows(front + back, front[i], front[j], n);
    var k := PlaceInGroup(front, back, keys[i], n);
    SinglePlain(front + back, keys[i], k);
    EntryAt(front + back, keys, i, k);
    OffsetGrows(front + back, keys, i, j);
    r := Offset(front + back, keys, i) + k;
  }

  lemma {:induction false} IntruderShows(ordered: seq<Cluster>, earlier: Cluster, later: Cluster, n: Cluster)
    requires Intrudes(ordered, earlier, later, n)
    ensures Payload(n.row) == Payload(earlier.row) && !Collapses(ordered, Group(ordered, Payload(earlier.row)))
  {
  }

  lemma {:induction false} PlaceInGroup(front: seq<Cluster>, back: seq<Cluster>, p: Row, n: Cluster) returns (k: nat)
    requires n in back && Payload(n.row) == p
    ensures k < |Group(front + back, p)| && Group(front + back, p)[k] == n
  {
    assert n in front + back;
    assert n in Group(front + back, p);
    k :| 0 <= k < |Group(front + back, p)| && Group(front + back, p)[k] == n;
  }

  lemma {:induction false} IntruderTakes(c: Codec, front: seq<Cluster>, back: seq<Cluster>, keys: seq<Row>, i: nat,
          j: nat, n: Cluster)
    requires BaseBoard(front, back) && keys == Contents(front + back) && i < j < |front| <= |keys|
    requires forall m | 0 <= m < |front| :: keys[m] == Payload(front[m].row)
    requires n in back && Intrudes(front + back, front[i], front[j], n) && n.baseId.None?
    requires ClusterIds(n) == [front[j].baseId.value] && LikesNumbers(Logical(front + back, keys))
    ensures !Kept(Settle(c, front + back), front[j].baseId, Payload(front[j].row))
  {
    var es, x := Logical(front + back, keys), front[j].baseId.value;
    var r := IntruderAt(front, back, keys, i, j, n);
    var rows := Assign(c, es, {}, InitialTaken(front + back));
    forall s | 0 <= s < |rows| && Payload(rows[s]) == Payload(front[j].row) ensures RowId(rows[s]) != Some(x) {
      AssignContents(c, es, {}, InitialTaken(front + back), s);
      ContentBehind(front + back, keys, j, s);
      IntruderBlocks(c, es, {}, InitialTaken(front + back), r, x, s);
    }
  }

  lemma {:induction false} ContentBehind(ordered: seq<Cluster>, keys: seq<Row>, j: nat, s: nat)
    requires NoDuplicates(keys) && j < |keys| && s < |Logical(ordered, keys)|
    requires Payload(Logical(ordered, keys)[s].row) == keys[j]
    ensures Offset(ordered, keys, j) <= s
  {
    hide *;
    var i, k := EntryPlace(ordered, keys, s);
    EntryShows(ordered, keys[i], k);
    OneIndex(keys, i, j);
  }

  // ---------------------------------------------------------------- the claim

  lemma {:induction false} BuildUnplaced(c: Codec, arrivals: seq<Arrival>)
    ensures forall cu | cu in Build(c, arrivals) :: cu.basePos.None? ==> cu.baseId.None?
  {
    if arrivals != [] {
      BuildUnplaced(c, arrivals[..|arrivals| - 1]);
    }
  }

  /** Some new cluster is emitted early under a later base row's id. */
  ghost predicate Intruded(c: Codec, cl: seq<Cluster>, n: nat)
    requires n <= |cl|
  {
    exists i, j, x :: 0 <= i < j < n && x in cl && IsNew(x) && Intrudes(Ordered(c, cl), cl[i], cl[j], x)
  }

  /** Base ids as the source assumes them: one spelling each, none invented by a merge, none used twice. */
  ghost predicate CleanBase(base: seq<Row>, rows: seq<Row>) {
    && NumericBoard(rows) && OneSpelling(IdsOf(rows)) && DistinctKeys(base)
    && forall row | row in base :: RowId(row).Some? && !IsDerived(row.id.value)
  }

  lemma {:induction false} BasePlaced(cl: seq<Cluster>, base: seq<Row>, i: nat)
    requires BaseInPlace(cl, base) && i < |cl|
    ensures IsNew(cl[i]) <==> |base| <= i
  {
    assert i < |base| ==> StandsFor(cl[i], base[i], i);
  }

  lemma {:induction false} BackClusters(c: Codec, cl: seq<Cluster>, base: seq<Row>, x: Cluster)
    requires BaseInPlace(cl, base)
    ensures x in SortBy(ContentLe(c), cl[|base|..]) <==> x in cl && IsNew(x)
  {
    SortPermutes(ContentLe(c), cl[|base|..]);
    if x in cl && IsNew(x) {
      var i :| 0 <= i < |cl| && cl[i] == x;
      BasePlaced(cl, base, i);
      assert cl[|base|..][i - |base|] == x;
    }
    if x in cl[|base|..] {
      var k := BehindIndex(cl, |base|, x);
      BasePlaced(cl, base, k);
    }
  }

  lemma {:induction false} IsBaseBoard(c: Codec, cl: seq<Cluster>, base: seq<Row>)
    requires BaseInPlace(cl, base) && BaseApart(cl, |base|) && DistinctKeys(base)
    requires forall row | row in base :: RowId(row).Some? && !IsDerived(row.id.value)
    requires forall cu | cu in cl :: cu.basePos.None? ==> cu.baseId.None?
    ensures BaseBoard(cl[..|base|], SortBy(ContentLe(c), cl[|base|..]))
  {
    var front, back := cl[..|base|], SortBy(ContentLe(c), cl[|base|..]);
    forall i | 0 <= i < |front|
      ensures front[i].row.Obj? && front[i].baseId == RowId(base[i]) && RowId(base[i]).Some?
      ensures !IsDerived(base[i].id.value)
    {
      assert StandsFor(cl[i], base[i], i);
      assert base[i] in base;
    }
    forall i, j | 0 <= i < j < |front| ensures front[i].baseId != front[j].baseId {
      assert RowKey(base[i]) != RowKey(base[j]);
    }
    forall n | n in back ensures n.baseId.None? {
      BackClusters(c, cl, base, n);
    }
  }

  lemma {:induction false} IntrudedOne(c: Codec, cl: seq<Cluster>, front: seq<Cluster>, back: seq<Cluster>)
    requires |front| <= |cl| && front == cl[..|front|] && Ordered(c, cl) == front + back
    requires forall x :: x in back <==> x in cl && IsNew(x)
    ensures !NobodyIntrudes(front, back) ==> Intruded(c, cl, |front|)
    ensures Intruded(c, cl, |front|) ==> !NobodyIntrudes(front, back)
  {
    hide Intrudes, Ordered;
    if Intruded(c, cl, |front|) {
      var i, j, x :| 0 <= i < j < |front| && x in cl && IsNew(x) && Intrudes(Ordered(c, cl), cl[i], cl[j], x);
      assert cl[i] == front[i] && cl[j] == front[j];
      assert Intrudes(front + back, front[i], front[j], x);
    }
    if !NobodyIntrudes(front, back) {
      var i, j, x :| 0 <= i < j < |front| && x in back && Intrudes(front + back, front[i], front[j], x);
      assert cl[i] == front[i] && cl[j] == front[j];
      assert Intrudes(Ordered(c, cl), cl[i], cl[j], x);
    }
  }

  lemma {:induction false} IntrudedMeans(c: Codec, cl: seq<Cluster>, base: seq<Row>)
    requires BaseInPlace(cl, base) && |base| <= |cl|
    requires Ordered(c, cl) == cl[..|base|] + SortBy(ContentLe(c), cl[|base|..])
    ensures Intruded(c, cl, |base|) <==> !NobodyIntrudes(cl[..|base|], SortBy(ContentLe(c), cl[|base|..]))
  {
    hide *;
    forall x ensures x in SortBy(ContentLe(c), cl[|base|..]) <==> x in cl && IsNew(x) {
      BackClusters(c, cl, base, x);
    }
    IntrudedOne(c, cl, cl[..|base|], SortBy(ContentLe(c), cl[|base|..]));
  }

  lemma {:induction false} BoardKeeps(c: Codec, front: seq<Cluster>, back: seq<Cluster>)
    requires BaseBoard(front, back) && LikesNumbers(Logical(front + back, Contents(front + back)))
    requires forall n, x | n in back && x in ClusterIds(n) :: ClusterIds(n) == [x]
    ensures (forall j | 0 <= j < |front| :: Kept(Settle(c, front + back), front[j].baseId, Payload(front[j].row)))
       <==> NobodyIntrudes(front, back)
  {
    var keys := Contents(front + back);
    BaseKeys(front, back);
    if NobodyIntrudes(front, back) {
      forall j | 0 <= j < |front| ensures Kept(Settle(c, front + back), front[j].baseId, Payload(front[j].row)) {
        LeaderKept(c, front, back, keys, j);
      }
    } else {
      var i, j, n :| 0 <= i < j < |front| && n in back && Intrudes(front + back, front[i], front[j], n);
      IntruderTakes(c, front, back, keys, i, j, n);
    }
  }

  lemma {:induction false} NewOneId(c: Codec, base: seq<Row>, ours: seq<Row>, theirs: seq<Row>, n: Cluster, x: Id)
    requires OneSpelling(IdsOf(base + ours + theirs))
    requires n in Build(c, Arrivals(base, ours, theirs)) && x in ClusterIds(n)
    ensures ClusterIds(n) == [x]
  {
    var s := IdsOf(base + ours + theirs);
    BuildSpelt(c, Arrivals(base, ours, theirs));
    ArrivalIds(base, ours, theirs);
    BuildIdsWithin(c, Arrivals(base, ours, theirs), s);
    OneId(n, s, x);
  }

  lemma {:induction false} BaseSetUp(c: Codec, base: seq<Row>, ours: seq<Row>, theirs: seq<Row>)
    requires CleanBase(base, base + ours + theirs)
    requires BaseApart(Build(c, Arrivals(base, ours, theirs)), |base|)
    ensures var cl := Build(c, Arrivals(base, ours, theirs));
      |base| <= |cl| && var front, back := cl[..|base|], SortBy(ContentLe(c), cl[|base|..]);
      && Ordered(c, cl) == front + back && BaseInPlace(cl, base) && BaseBoard(front, back)
      && (forall i | 0 <= i < |base| :: Carries(cl[i].row, base[i]) && front[i].baseId == RowId(base[i]))
      && forall n, x | n in back && x in ClusterIds(n) :: ClusterIds(n) == [x]
  {
    var cl := Build(c, Arrivals(base, ours, theirs));
    BaseInOrder(c, base, ours, theirs);
    BuildUnplaced(c, Arrivals(base, ours, theirs));
    IsBaseBoard(c, cl, base);
    forall n, x | n in SortBy(ContentLe(c), cl[|base|..]) && x in ClusterIds(n) ensures ClusterIds(n) == [x] {
      BackClusters(c, cl, base, n);
      NewOneId(c, base, ours, theirs, n, x);
    }
    forall i | 0 <= i < |base| ensures Carries(cl[i].row, base[i]) && cl[..|base|][i].baseId == RowId(base[i]) {
      assert StandsFor(cl[i], base[i], i);
    }
  }

  /** BASE IDS, exactly: with base rows under distinct ids and showing distinct contents, every base row keeps its id if
      and only if no new row carries a later base row's id while showing an earlier base row's content, in a group that
      stays apart. */
  lemma {:induction false} BaseKeptExactly(c: Codec, base: seq<Row>, ours: seq<Row>, theirs: seq<Row>)
    requires CleanBase(base, base + ours + theirs)
    requires BaseApart(Build(c, Arrivals(base, ours, theirs)), |base|)
    ensures var cl, out := Build(c, Arrivals(base, ours, theirs)), Merged(c, base, ours, theirs);
      && |base| <= |cl| && (forall i | 0 <= i < |base| :: Carries(cl[i].row, base[i]))
      && ((forall i | 0 <= i < |base| :: Kept(out, RowId(base[i]), Payload(cl[i].row))) <==> !Intruded(c, cl, |base|))
  {
    hide *;
    BaseSetUp(c, base, ours, theirs);
    NumbersOnly(c, base, ours, theirs);
    var cl := Build(c, Arrivals(base, ours, theirs));
    var front, back := cl[..|base|], SortBy(ContentLe(c), cl[|base|..]);
    MergedIs(c, base, ours, theirs);
    BoardKeeps(c, front, back);
    IntrudedMeans(c, cl, base);
    KeptSame(cl, front, base, Settle(c, front + back));
  }

  lemma {:induction false} NumbersOnly(c: Codec, base: seq<Row>, ours: seq<Row>, theirs: seq<Row>)
    requires CleanBase(base, base + ours + theirs)
    ensures var ordered := Ordered(c, Build(c, Arrivals(base, ours, theirs)));
      LikesNumbers(Logical(ordered, Contents(ordered)))
  {
    LikesNumeric(c, base, ours, theirs);
  }

  lemma {:induction false} KeptSame(cl: seq<Cluster>, front: seq<Cluster>, base: seq<Row>, out: seq<Row>)
    requires |base| <= |cl| && front == cl[..|base|] && forall i | 0 <= i < |base| :: front[i].baseId == RowId(base[i])
    ensures (forall i | 0 <= i < |front| :: Kept(out, front[i].baseId, Payload(front[i].row)))
       <==> (forall i | 0 <= i < |base| :: Kept(out, RowId(base[i]), Payload(cl[i].row)))
  {
    hide Kept, Payload, RowId;
    assert forall i | 0 <= i < |base| :: front[i] == cl[i];
  }

  lemma {:induction false} BaseInOrder(c: Codec, base: seq<Row>, ours: seq<Row>, theirs: seq<Row>)
    requires DistinctKeys(base)
    ensures var cl := Build(c, Arrivals(base, ours, theirs));
      BaseInPlace(cl, base) && Ordered(c, cl) == cl[..|base|] + SortBy(ContentLe(c), cl[|base|..])
  {
    assert Arrivals(base, ours, theirs) == BaseArrivals(base) + SideArrivals(ours + theirs);
    BuildSide(c, base, ours + theirs);
    BaseFirst(c, Build(c, Arrivals(base, ours, theirs)), base);
  }
}
