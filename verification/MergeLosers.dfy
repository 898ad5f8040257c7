/** Boards of text ids: which rows lose their id, what they get instead, and exactly when an id repeats. */
module MergeLosers {
  import opened Prelude
  import opened BoardRows
  import opened IdSpace
  import opened MergeSpec
  import opened MergeLossless
  import opened MergeIds
  import opened MergeSymmetry
  import opened MergeCanonical
  import opened MergeLimits
  import opened MergePrefixed
  import opened MergeBase

  // ---------------------------------------------------------------- losing an id

  /** An entry seen under its row's id only, which is a text, or under none. */
  ghost predicate Texted(e: Entry) {
    && e.ids == Listed(RowId(e.row)) && (e.baseId.Some? ==> e.baseId == RowId(e.row))
    && (RowId(e.row).Some? ==> RowId(e.row).value.Str?)
  }

  /** The id the entry is renumbered to: the band value of its content behind the prefix of its id. */
  function HomeAt(c: Codec, e: Entry): Id
    requires RowId(e.row).Some?
  {
    Home(c, RowId(e.row).value, Payload(e.row))
  }

  /** Entry `t` loses its id: an entry before it has it, or was renumbered to it. */
  ghost predicate Loses(c: Codec, es: seq<Entry>, t: nat)
    requires t < |es|
    decreases t
  {
    RowId(es[t].row).Some? && exists s :: 0 <= s < t && (RowId(es[s].row) == RowId(es[t].row) || LandsOn(c, es, s, t))
  }

  ghost predicate LandsOn(c: Codec, es: seq<Entry>, s: nat, t: nat)
    requires s < t < |es|
    decreases t, 0
  {
    RowId(es[s].row).Some? && Loses(c, es, s) && Some(HomeAt(c, es[s])) == RowId(es[t].row)
  }

  /** What entry `t` ends under. */
  ghost function Given(c: Codec, es: seq<Entry>, t: nat): Option<Id>
    requires t < |es|
  {
    if Loses(c, es, t) then Some(HomeAt(c, es[t])) else RowId(es[t].row)
  }

  ghost predicate TextsOnly(ids: set<Id>) {
    forall id | id in ids :: id.Str?
  }

  /** A board of text ids whose losers end in a number. */
  ghost predicate TextBoard(c: Codec, es: seq<Entry>) {
    && (forall e | e in es :: Texted(e))
    && forall t | 0 <= t < |es| && Loses(c, es, t) :: Tailed(RowId(es[t].row).value)
  }

  /** Before entry `t` exactly what the entries before it were given is claimed. */
  ghost predicate ClaimedBefore(c: Codec, es: seq<Entry>, t: nat, claimed: set<Id>) {
    t <= |es| && forall z :: z in claimed <==> GivenBefore(c, es, t, z)
  }

  ghost predicate GivenBefore(c: Codec, es: seq<Entry>, t: nat, z: Id)
    requires t <= |es|
  {
    exists s :: 0 <= s < t && Given(c, es, s) == Some(z)
  }

  /** An id that an entry before `t` carries was given to some entry before `t`. */
  lemma {:induction false} CarriedIsGiven(c: Codec, es: seq<Entry>, s: nat, t: nat)
    requires s < t <= |es| && RowId(es[s].row).Some?
    ensures GivenBefore(c, es, t, RowId(es[s].row).value)
    decreases s
  {
    if Loses(c, es, s) {
      var r :| 0 <= r < s && (RowId(es[r].row) == RowId(es[s].row) || LandsOn(c, es, r, s));
      if LandsOn(c, es, r, s) {
        assert Given(c, es, r) == RowId(es[s].row);
      } else {
        CarriedIsGiven(c, es, r, t);
      }
    } else {
      assert Given(c, es, s) == RowId(es[s].row);
    }
  }

  lemma {:induction false} LosesMeans(c: Codec, es: seq<Entry>, t: nat)
    requires t < |es| && RowId(es[t].row).Some?
    ensures Loses(c, es, t) <==> GivenBefore(c, es, t, RowId(es[t].row).value)
  {
    if Loses(c, es, t) {
      var s :| 0 <= s < t && (RowId(es[s].row) == RowId(es[t].row) || LandsOn(c, es, s, t));
      if LandsOn(c, es, s, t) {
        assert Given(c, es, s) == RowId(es[t].row);
      } else {
        CarriedIsGiven(c, es, s, t);
      }
    }
    if GivenBefore(c, es, t, RowId(es[t].row).value) {
      var s :| 0 <= s < t && Given(c, es, s) == RowId(es[t].row);
      assert RowId(es[s].row) == RowId(es[t].row) || LandsOn(c, es, s, t);
    }
  }

  // ---------------------------------------------------------------- the loop

  lemma {:induction false} KeptText(c: Codec, e: Entry, claimed: set<Id>, taken: set<Id>)
    requires Texted(e) && (RowId(e.row).Some? ==> RowId(e.row).value !in claimed)
    ensures Choice(c, e, claimed, taken) == RowId(e.row)
    ensures RowId(WithId(e.row, RowId(e.row))) == RowId(e.row)
  {
    if RowId(e.row).Some? {
      OneCandidate(e, claimed, RowId(e.row).value);
    }
  }

  /** A loser is renumbered to its home, even where another row already has that id. */
  lemma {:induction false} LostText(c: Codec, e: Entry, claimed: set<Id>, taken: set<Id>)
    requires Texted(e) && RowId(e.row).Some? && Tailed(RowId(e.row).value)
    requires RowId(e.row).value in claimed && TextsOnly(taken)
    ensures Choice(c, e, claimed, taken) == Some(HomeAt(c, e))
    ensures RowId(WithId(e.row, Some(HomeAt(c, e)))) == Some(HomeAt(c, e))
    ensures HomeAt(c, e).Str?
  {
    OneCandidate(e, claimed, RowId(e.row).value);
    UnsaltedWhenFree(c, SeedText(c.digest(Payload(e.row)), RowId(e.row).value.s), taken);
    assert Like(e) == RowId(e.row);
  }

  lemma {:induction false} GivenStep(c: Codec, es: seq<Entry>, t: nat, claimed: set<Id>, taken: set<Id>)
    requires TextBoard(c, es) && ClaimedBefore(c, es, t, claimed) && TextsOnly(taken) && t < |es|
    ensures Choice(c, es[t], claimed, taken) == Given(c, es, t)
    ensures RowId(WithId(es[t].row, Given(c, es, t))) == Given(c, es, t)
    ensures Given(c, es, t).Some? ==> Given(c, es, t).value.Str?
  {
    assert es[t] in es;
    if RowId(es[t].row).Some? {
      LosesMeans(c, es, t);
    }
    if Loses(c, es, t) {
      LostText(c, es[t], claimed, taken);
    } else {
      KeptText(c, es[t], claimed, taken);
    }
  }

  lemma {:induction false} ClaimedAfter(c: Codec, es: seq<Entry>, t: nat, claimed: set<Id>)
    requires ClaimedBefore(c, es, t, claimed) && t < |es|
    ensures ClaimedBefore(c, es, t + 1, Added(claimed, Given(c, es, t)))
  {
    forall z ensures z in Added(claimed, Given(c, es, t)) <==> GivenBefore(c, es, t + 1, z) {
      GivenMore(c, es, t, z);
    }
  }

  lemma {:induction false} GivenMore(c: Codec, es: seq<Entry>, t: nat, z: Id)
    requires t < |es|
    ensures GivenBefore(c, es, t + 1, z) <==> GivenBefore(c, es, t, z) || Given(c, es, t) == Some(z)
  {
    if GivenBefore(c, es, t, z) {
      var s :| 0 <= s < t && Given(c, es, s) == Some(z);
    }
  }

  /** Every entry ends under what it was given. */
  lemma {:induction false} AssignGiven(c: Codec, es: seq<Entry>, t: nat, claimed: set<Id>, taken: set<Id>, k: nat)
    requires TextBoard(c, es) && ClaimedBefore(c, es, t, claimed) && TextsOnly(taken) && t <= k < |es|
    ensures RowId(Assign(c, es[t..], claimed, taken)[k - t]) == Given(c, es, k)
    decreases k - t
  {
    hide *;
    var id := Given(c, es, t);
    GivenStep(c, es, t, claimed, taken);
    DropTail(c, es, t, claimed, taken, k);
    if t < k {
      ClaimedAfter(c, es, t, claimed);
      MoreTexts(taken, id);
      AssignGiven(c, es, t + 1, Added(claimed, id), Added(taken, id), k);
    }
  }

  lemma {:induction false} MoreTexts(taken: set<Id>, id: Option<Id>)
    requires TextsOnly(taken) && (id.Some? ==> id.value.Str?)
    ensures TextsOnly(Added(taken, id))
  {
  }

  ghost predicate AsGiven(c: Codec, es: seq<Entry>, rows: seq<Row>) {
    |rows| == |es| && forall k | 0 <= k < |es| :: RowId(rows[k]) == Given(c, es, k)
  }

  lemma {:induction false} AllGiven(c: Codec, es: seq<Entry>, taken: set<Id>)
    requires TextBoard(c, es) && TextsOnly(taken)
    ensures AsGiven(c, es, Assign(c, es, {}, taken))
  {
    forall k | 0 <= k < |es| ensures RowId(Assign(c, es, {}, taken)[k]) == Given(c, es, k) {
      AssignGiven(c, es, 0, {}, taken, k);
      assert es[0..] == es;
    }
  }

  // ---------------------------------------------------------------- the exact condition

  /** Entry `t` loses its id and is renumbered to one that entry `s` before it carries, or was renumbered to. */
  ghost predicate Clash(c: Codec, es: seq<Entry>, s: nat, t: nat)
    requires s < t < |es|
  {
    && Loses(c, es, t) && RowId(es[t].row).Some?
    && (RowId(es[s].row) == Some(HomeAt(c, es[t]))
        || (RowId(es[s].row).Some? && Loses(c, es, s) && HomeAt(c, es[s]) == HomeAt(c, es[t])))
  }

  lemma {:induction false} ClashRepeats(c: Codec, es: seq<Entry>, s: nat, t: nat) returns (r: nat)
    requires s < t < |es| && Clash(c, es, s, t)
    ensures r < t && Given(c, es, r) == Given(c, es, t) && Given(c, es, t).Some?
  {
    if RowId(es[s].row) == Some(HomeAt(c, es[t])) {
      CarriedIsGiven(c, es, s, t);
      r :| 0 <= r < t && Given(c, es, r) == Some(HomeAt(c, es[t]));
    } else {
      r := s;
    }
  }

  lemma {:induction false} RepeatClashes(c: Codec, es: seq<Entry>, s: nat, t: nat)
    requires s < t < |es| && Given(c, es, s) == Given(c, es, t) && Given(c, es, t).Some?
    ensures Clash(c, es, s, t)
  {
    if !Loses(c, es, t) {
      assert GivenBefore(c, es, t, RowId(es[t].row).value);
      LosesMeans(c, es, t);
    }
  }

  lemma {:induction false} ClashShows(c: Codec, es: seq<Entry>, rows: seq<Row>, s: nat, t: nat)
    requires AsGiven(c, es, rows) && s < t < |es| && Clash(c, es, s, t)
    ensures !NoRepeatedIds(rows)
  {
    var r := ClashRepeats(c, es, s, t);
    hide Given, Clash;
    assert RowId(rows[r]) == RowId(rows[t]);
  }

  lemma {:induction false} RepeatShows(c: Codec, es: seq<Entry>, rows: seq<Row>) returns (s: nat, t: nat)
    requires AsGiven(c, es, rows) && !NoRepeatedIds(rows)
    ensures s < t < |es| && Clash(c, es, s, t)
  {
    hide Given, Clash;
    s, t :| 0 <= s < t < |rows| && RowId(rows[s]).Some? && RowId(rows[s]) == RowId(rows[t]);
    RepeatClashes(c, es, s, t);
  }

  /** AN ID REPEATS, exactly, among entries of text ids: when a loser's home is carried by an entry before it, or is the
      home of one that lost before it. */
  lemma {:induction false} RepeatsExactly(c: Codec, es: seq<Entry>, taken: set<Id>)
    requires TextBoard(c, es) && TextsOnly(taken)
    ensures NoRepeatedIds(Assign(c, es, {}, taken)) <==> forall s: nat, t: nat | s < t < |es| :: !Clash(c, es, s, t)
  {
    hide *;
    var rows := Assign(c, es, {}, taken);
    AllGiven(c, es, taken);
    if s: nat, t: nat :| s < t < |es| && Clash(c, es, s, t) {
      ClashShows(c, es, rows, s, t);
    }
    if !NoRepeatedIds(rows) {
      var s, t := RepeatShows(c, es, rows);
    }
  }

  // ---------------------------------------------------------------- boards

  /** Every id on the board is a text that ends in a number. */
  ghost predicate TailedBoard(rows: seq<Row>) {
    forall row | row in rows :: RowId(row).Some? ==> Tailed(row.id.value)
  }

  lemma {:induction false} TakenTexts(ordered: seq<Cluster>)
    requires forall cu | cu in ordered :: RowId(cu.row).Some? ==> cu.row.id.value.Str?
    ensures TextsOnly(InitialTaken(ordered))
  {
    forall id | id in InitialTaken(ordered) ensures id.Str? {
      TakenFromRows(ordered, id);
    }
  }

  lemma {:induction false} TailedIds(rows: seq<Row>)
    requires TailedBoard(rows)
    ensures OneSpelling(IdsOf(rows)) && forall id | id in IdsOf(rows) :: Tailed(id)
  {
    forall id | id in IdsOf(rows) ensures Tailed(id) {
      var i :| 0 <= i < |rows| && RowId(rows[i]) == Some(id);
      assert rows[i] in rows;
    }
  }

  /** A cluster of one spelling is seen under its row's id only. */
  lemma {:induction false} SpeltIds(cu: Cluster, s: set<Id>)
    requires Spelt(cu) && IdsWithin(cu, s) && OneSpelling(s)
    ensures ClusterIds(cu) == Listed(RowId(cu.row)) && (cu.baseId.Some? ==> cu.baseId == RowId(cu.row))
    ensures RowId(cu.row).Some? ==> RowId(cu.row).value in s
  {
    CarriedIds(cu);
    hide ClusterIds, OneSpelling;
    if ClusterIds(cu) != [] {
      assert ClusterIds(cu)[0] in ClusterIds(cu);
      OneId(cu, s, ClusterIds(cu)[0]);
      assert RowId(cu.row).Some?;
    }
  }

  lemma {:induction false} CarriedIds(cu: Cluster)
    ensures cu.baseId.Some? ==> cu.baseId.value in ClusterIds(cu)
    ensures RowId(cu.row).Some? ==> RowId(cu.row).value in ClusterIds(cu)
  {
  }

  /** The cluster is seen under its row's id only, which is none or a text that ends in a number. */
  ghost predicate Plain(cu: Cluster) {
    Texted(Single(cu)) && (RowId(cu.row).Some? ==> Tailed(RowId(cu.row).value))
  }

  lemma {:induction false} BoardTexted(c: Codec, base: seq<Row>, ours: seq<Row>, theirs: seq<Row>, cu: Cluster)
    requires TailedBoard(base + ours + theirs)
    requires cu in Ordered(c, Build(c, Arrivals(base, ours, theirs)))
    ensures Plain(cu)
  {
    hide *;
    var arrivals, s := Arrivals(base, ours, theirs), IdsOf(base + ours + theirs);
    ArrivalIds(base, ours, theirs);
    BuildIdsWithin(c, arrivals, s);
    BuildSpelt(c, arrivals);
    OrderedSameClusters(c, Build(c, arrivals));
    TailedIds(base + ours + theirs);
    SpeltIds(cu, s);
    SingleTexted(cu);
  }

  lemma {:induction false} SingleTexted(cu: Cluster)
    requires ClusterIds(cu) == Listed(RowId(cu.row)) && (cu.baseId.Some? ==> cu.baseId == RowId(cu.row))
    requires RowId(cu.row).Some? ==> Tailed(RowId(cu.row).value)
    ensures Plain(cu)
  {
  }

  lemma {:induction false} PlainEntry(ordered: seq<Cluster>, t: nat) returns (cu: Cluster)
    requires NothingFolds(ordered) && t < |Logical(ordered, Contents(ordered))|
    ensures cu in ordered && Logical(ordered, Contents(ordered))[t] == Single(cu)
  {
    hide *;
    var keys := Contents(ordered);
    var i, k := EntryPlace(ordered, keys, t);
    KeyStaysApart(ordered, i);
    PlainGroup(ordered, keys[i]);
    SinglePlain(ordered, keys[i], k);
    SingleAt(ordered, keys[i], k);
    cu := Group(ordered, keys[i])[k];
  }

  lemma {:induction false} KeyStaysApart(ordered: seq<Cluster>, i: nat)
    requires NothingFolds(ordered) && i < |Contents(ordered)|
    ensures !Collapses(ordered, Group(ordered, Contents(ordered)[i]))
  {
    hide Collapses, Contents;
    assert Contents(ordered)[i] in Contents(ordered);
  }

  lemma {:induction false} BoardIsText(c: Codec, ordered: seq<Cluster>)
    requires NothingFolds(ordered) && forall cu | cu in ordered :: Plain(cu)
    ensures TextBoard(c, Logical(ordered, Contents(ordered))) && TextsOnly(InitialTaken(ordered))
  {
    var es := Logical(ordered, Contents(ordered));
    forall t | 0 <= t < |es| ensures Texted(es[t]) && (RowId(es[t].row).Some? ==> Tailed(RowId(es[t].row).value)) {
      var cu := PlainEntry(ordered, t);
      SingleRow(cu);
      assert Plain(cu);
    }
    TakenTexts(ordered);
  }

  /** AN ID REPEATS in the result, exactly, on boards of prefixed ids where no content folds: when a row that loses its
      id is renumbered to one that a row emitted before it carries, or was renumbered to. */
  lemma {:induction false} PrefixedExactly(c: Codec, base: seq<Row>, ours: seq<Row>, theirs: seq<Row>)
    requires TailedBoard(base + ours + theirs)
    requires NothingFolds(Ordered(c, Build(c, Arrivals(base, ours, theirs))))
    ensures var ordered := Ordered(c, Build(c, Arrivals(base, ours, theirs)));
      var es := Logical(ordered, Contents(ordered));
      NoRepeatedIds(Merged(c, base, ours, theirs)) <==> forall s: nat, t: nat | s < t < |es| :: !Clash(c, es, s, t)
  {
    hide *;
    var ordered := Ordered(c, Build(c, Arrivals(base, ours, theirs)));
    forall cu | cu in ordered ensures Plain(cu) {
      BoardTexted(c, base, ours, theirs, cu);
    }
    BoardIsText(c, ordered);
    MergedIs(c, base, ours, theirs);
    SettleIs(c, ordered);
    RepeatsExactly(c, Logical(ordered, Contents(ordered)), InitialTaken(ordered));
  }

  // ---------------------------------------------------------------- different contents, different bands

  /** Entry `t` loses its id while entry `s` before it carries its home. */
  ghost predicate HomeHeld(c: Codec, es: seq<Entry>, s: nat, t: nat)
    requires s < t < |es|
  {
    Loses(c, es, t) && RowId(es[t].row).Some? && RowId(es[s].row) == Some(HomeAt(c, es[t]))
  }

  /** No two rows left by the clustering show one content. */
  ghost predicate AllApart(ordered: seq<Cluster>) {
    NoDuplicates(MapSeq(PayloadOf, ordered))
  }

  ghost predicate BandsDiffer(c: Codec, ordered: seq<Cluster>) {
    forall p, q | p in Contents(ordered) && q in Contents(ordered) && p != q :: HashBand(c, p) != HashBand(c, q)
  }

  lemma {:induction false} ApartNoFold(ordered: seq<Cluster>)
    requires AllApart(ordered)
    ensures NothingFolds(ordered) && Logical(ordered, Contents(ordered)) == MapSeq(Single, ordered)
  {
    ApartEntries(ordered);
    forall p | p in Contents(ordered) ensures !Collapses(ordered, Group(ordered, p)) {
      var i := ContentAt(ordered, p);
      forall j | 0 <= j < |ordered| && j != i ensures Payload(ordered[j].row) != p {
        assert MapSeq(PayloadOf, ordered)[i] != MapSeq(PayloadOf, ordered)[j];
      }
      AloneInGroup(ordered, i);
    }
  }

  lemma {:induction false} ContentAt(ordered: seq<Cluster>, p: Row) returns (i: nat)
    requires p in Contents(ordered)
    ensures i < |ordered| && Payload(ordered[i].row) == p
  {
    var cu :| cu in ordered && Payload(cu.row) == p;
    i :| 0 <= i < |ordered| && ordered[i] == cu;
  }

  lemma {:induction false} HomesDiffer(c: Codec, x: Id, p: Row, y: Id, q: Row)
    requires Tailed(x) && Tailed(y) && Hashed(c) && Home(c, x, p) == Home(c, y, q)
    ensures HashBand(c, p) == HashBand(c, q)
  {
    HomeText(c, x, p);
    HomeText(c, y, q);
  }

  lemma {:induction false} BandsPart(c: Codec, ordered: seq<Cluster>, s: nat, t: nat)
    requires AllApart(ordered) && BandsDiffer(c, ordered) && s < t < |ordered|
    ensures HashBand(c, Payload(ordered[s].row)) != HashBand(c, Payload(ordered[t].row))
  {
    var p, q := Payload(ordered[s].row), Payload(ordered[t].row);
    assert MapSeq(PayloadOf, ordered)[s] != MapSeq(PayloadOf, ordered)[t];
    assert ordered[s] in ordered && ordered[t] in ordered;
    hide Payload, HashBand, Contents;
    assert p in Contents(ordered) && q in Contents(ordered);
  }

  /** Rows of different contents have different homes. */
  lemma {:induction false} HomesPart(c: Codec, ordered: seq<Cluster>, s: nat, t: nat)
    requires AllApart(ordered) && BandsDiffer(c, ordered) && Hashed(c) && s < t < |ordered|
    requires forall cu | cu in ordered :: Plain(cu)
    requires RowId(ordered[s].row).Some? && RowId(ordered[t].row).Some?
    ensures HomeAt(c, Single(ordered[s])) != HomeAt(c, Single(ordered[t]))
  {
    var x, y := ordered[s], ordered[t];
    BandsPart(c, ordered, s, t);
    PlainTailed(ordered, s);
    PlainTailed(ordered, t);
    hide Home, HashBand, Payload, Plain, BandsDiffer, AllApart;
    if HomeAt(c, Single(x)) == HomeAt(c, Single(y)) {
      HomesDiffer(c, RowId(x.row).value, Payload(x.row), RowId(y.row).value, Payload(y.row));
    }
  }

  lemma {:induction false} PlainTailed(ordered: seq<Cluster>, s: nat)
    requires s < |ordered| && RowId(ordered[s].row).Some? && forall cu | cu in ordered :: Plain(cu)
    ensures Tailed(RowId(ordered[s].row).value)
  {
    assert Plain(ordered[s]);
  }

  lemma {:induction false} ClashIsHeld(c: Codec, ordered: seq<Cluster>, s: nat, t: nat)
    requires AllApart(ordered) && BandsDiffer(c, ordered) && Hashed(c) && s < t < |ordered|
    requires forall cu | cu in ordered :: Plain(cu)
    ensures Clash(c, MapSeq(Single, ordered), s, t) <==> HomeHeld(c, MapSeq(Single, ordered), s, t)
  {
    SingleRow(ordered[s]);
    SingleRow(ordered[t]);
    if RowId(ordered[s].row).Some? && RowId(ordered[t].row).Some? {
      HomesPart(c, ordered, s, t);
    }
    hide Loses, HomeAt, Single;
  }

  /** And where moreover no two rows show one content and no two contents have one band value: exactly when some
      loser's home is carried by a row emitted before it. */
  lemma {:induction false} HeldHomesExactly(c: Codec, base: seq<Row>, ours: seq<Row>, theirs: seq<Row>)
    requires TailedBoard(base + ours + theirs) && Hashed(c)
    requires var ordered := Ordered(c, Build(c, Arrivals(base, ours, theirs)));
      AllApart(ordered) && BandsDiffer(c, ordered)
    ensures var es := MapSeq(Single, Ordered(c, Build(c, Arrivals(base, ours, theirs))));
      NoRepeatedIds(Merged(c, base, ours, theirs)) <==> forall s: nat, t: nat | s < t < |es| :: !HomeHeld(c, es, s, t)
  {
    hide *;
    var ordered := Ordered(c, Build(c, Arrivals(base, ours, theirs)));
    forall cu | cu in ordered ensures Plain(cu) {
      BoardTexted(c, base, ours, theirs, cu);
    }
    ApartNoFold(ordered);
    PrefixedExactly(c, base, ours, theirs);
    var es := MapSeq(Single, ordered);
    forall s: nat, t: nat | s < t < |es| ensures Clash(c, es, s, t) <==> HomeHeld(c, es, s, t) {
      ClashIsHeld(c, ordered, s, t);
    }
  }
}
