/** Unique ids on boards of prefixed ids, where the allocator checks the bare number only. */
module MergePrefixed {
  import opened Prelude
  import opened BoardRows
  import opened IdSpace
  import opened MergeSpec
  import opened MergeIds
  import opened MergeSymmetry
  import opened MergeTies
  import opened MergeCanonical
  import opened MergeRows

  // ---------------------------------------------------------------- what must not meet

  /** The band value of a content, which does not depend on the id it arrived under. */
  function HashBand(c: Codec, p: Row): nat {
    BandValue(c, c.digest(p), 0)
  }

  /** The id prints ending in exactly this number. */
  predicate StandsOn(id: Id, n: nat) {
    var s := IdText(id);
    s[TailStart(s)..] == DecimalText(n)
  }

  function Renewed(c: Codec, e: Entry): Id
    requires Like(e).Some?
  {
    Home(c, Like(e).value, Payload(e.row))
  }

  /** Some id of the entry is carried by no other entry. */
  ghost predicate HasOwnId(es: seq<Entry>, t: nat)
    requires t < |es|
  {
    exists x :: x in es[t].ids && forall s | 0 <= s < |es| && s != t :: x !in es[s].ids
  }

  /** Different contents have different band values; a row standing on a band value has that content and no brother;
      and of two rows left with one content, one has an id of its own. */
  ghost predicate PrefixSafe(c: Codec, es: seq<Entry>) {
    && (forall t | 0 <= t < |es| :: es[t].baseId.Some? ==> es[t].baseId.value in es[t].ids)
    && (forall t | 0 <= t < |es| && Like(es[t]).Some? ::
        Numeric(Like(es[t]).value) && c.digest(Payload(es[t].row)) != "")
    && (forall s, t | 0 <= s < |es| && 0 <= t < |es| && Payload(es[s].row) != Payload(es[t].row) ::
          HashBand(c, Payload(es[s].row)) != HashBand(c, Payload(es[t].row)))
    && (forall s, t, x | 0 <= s < |es| && 0 <= t < |es| && x in es[s].ids
        && StandsOn(x, HashBand(c, Payload(es[t].row))) :: s == t)
    && (forall s, t | 0 <= s < t < |es| && Payload(es[s].row) == Payload(es[t].row) ::
        HasOwnId(es, s) || HasOwnId(es, t))
  }

  // ---------------------------------------------------------------- the state of the assignment loop

  /** Entry `s` claimed `z`: as a candidate of its own, or as its renewal when it lost all its candidates. */
  ghost predicate ClaimedAs(c: Codec, es: seq<Entry>, t: nat, lost: set<nat>, z: Id, s: nat) {
    s < t && s < |es| && if s in lost then Like(es[s]).Some? && z == Renewed(c, es[s]) else z in es[s].ids
  }

  ghost predicate Claimed(c: Codec, es: seq<Entry>, t: nat, lost: set<nat>, z: Id) {
    exists s: nat :: ClaimedAs(c, es, t, lost, z, s)
  }

  ghost predicate Candidate(es: seq<Entry>, z: Id) {
    exists r :: 0 <= r < |es| && z in es[r].ids
  }

  /** Before entry `t`: claimed ids are candidates of entries that kept one, or renewals of entries that lost all
      theirs, and whatever else the allocator knows is some entry's candidate. */
  ghost predicate Fair(c: Codec, es: seq<Entry>, t: nat, claimed: set<Id>, taken: set<Id>, lost: set<nat>) {
    && t <= |es| && (forall s | s in lost :: s < t && Like(es[s]).Some?)
    && (forall s, x | s in lost && x in es[s].ids :: x in claimed)
    && (forall s | s in lost :: Renewed(c, es[s]) !in es[s].ids)
    && (forall z | z in claimed :: Claimed(c, es, t, lost, z))
    && (forall z | z in taken :: z in claimed || Candidate(es, z))
  }

  lemma {:induction false} Claimant(c: Codec, es: seq<Entry>, t: nat, claimed: set<Id>, taken: set<Id>, lost: set<nat>,
          z: Id)
    returns (s: nat)
    requires Fair(c, es, t, claimed, taken, lost) && z in claimed
    ensures s < t <= |es|
    ensures s !in lost ==> z in es[s].ids
    ensures s in lost ==>
      Like(es[s]).Some? && z == Renewed(c, es[s]) && z !in es[s].ids && forall x | x in es[s].ids :: x in claimed
  {
    assert Claimed(c, es, t, lost, z);
    s :| ClaimedAs(c, es, t, lost, z, s);
  }

  lemma {:induction false} SafeEntry(c: Codec, es: seq<Entry>, t: nat)
    requires PrefixSafe(c, es) && t < |es|
    ensures es[t].baseId.Some? ==> es[t].baseId.value in es[t].ids
    ensures Like(es[t]).Some? ==> Numeric(Like(es[t]).value) && c.digest(Payload(es[t].row)) != ""
  {
  }

  lemma {:induction false} SafePair(c: Codec, es: seq<Entry>, s: nat, t: nat, x: Id)
    requires PrefixSafe(c, es) && s < |es| && t < |es|
    ensures HashBand(c, Payload(es[s].row)) == HashBand(c, Payload(es[t].row))
        ==> Payload(es[s].row) == Payload(es[t].row)
    ensures x in es[s].ids && StandsOn(x, HashBand(c, Payload(es[t].row))) ==> s == t
    ensures s < t && Payload(es[s].row) == Payload(es[t].row) ==> HasOwnId(es, s) || HasOwnId(es, t)
  {
  }

  lemma {:induction false} RenewedStands(c: Codec, e: Entry)
    requires Like(e).Some? && Numeric(Like(e).value) && c.digest(Payload(e.row)) != ""
    ensures StandsOn(Renewed(c, e), HashBand(c, Payload(e.row)))
    ensures IsDerived(Renewed(c, e))
  {
    hide *;
    HomeText(c, Like(e).value, Payload(e.row));
    HomeStands(c, Like(e).value, Payload(e.row));
    RenewedIs(c, e);
  }

  lemma {:induction false} RenewedIs(c: Codec, e: Entry)
    requires Like(e).Some?
    ensures Renewed(c, e) == Home(c, Like(e).value, Payload(e.row))
  {
  }

  lemma {:induction false} HomeStands(c: Codec, like: Id, p: Row)
    requires Numeric(like) && c.digest(p) != ""
    ensures StandsOn(Home(c, like, p), HashBand(c, p))
  {
    hide IsDerived, HasTail, BandValue;
    var s, k := IdText(Home(c, like, p)), if like.Num? then 0 else TailStart(like.s);
    assert s[k..] == DecimalText(HashBand(c, p));
    DecimalRoundTrip(HashBand(c, p));
    TailStartIs(s, k);
  }

  lemma {:induction false} NumberStands(n: nat)
    ensures StandsOn(Num(n), n)
  {
    TailStartIs(DecimalText(n), 0);
    assert DecimalText(n)[0..] == DecimalText(n);
  }

  lemma {:induction false} StandsOnce(id: Id, m: nat, n: nat)
    requires StandsOn(id, m) && StandsOn(id, n)
    ensures m == n
  {
    DecimalRoundTrip(m);
    DecimalRoundTrip(n);
  }

  // ---------------------------------------------------------------- a renewal meets nobody

  /** A renewal claimed by entry `s` stands on its band value, so no other entry carries it. */
  lemma {:induction false} RenewalOwn(c: Codec, es: seq<Entry>, s: nat, q: nat)
    requires PrefixSafe(c, es) && s < |es| && q < |es| && Like(es[s]).Some? && Renewed(c, es[s]) in es[q].ids
    ensures q == s
  {
    hide *;
    SafeEntry(c, es, s);
    RenewedStands(c, es[s]);
    SafePair(c, es, q, s, Renewed(c, es[s]));
  }

  /** An id that only entry `q` carries is not claimed while `q` has not claimed it. */
  lemma {:induction false} OwnUnclaimed(c: Codec, es: seq<Entry>, t: nat, claimed: set<Id>, taken: set<Id>,
          lost: set<nat>, q: nat, x: Id)
    requires PrefixSafe(c, es) && Fair(c, es, t, claimed, taken, lost) && t < |es| && (q in lost || q == t)
    requires q < |es| && x in es[q].ids && forall s | 0 <= s < |es| && s != q :: x !in es[s].ids
    ensures x !in claimed
  {
    hide *;
    if x in claimed {
      var s := Claimant(c, es, t, claimed, taken, lost, x);
      if s in lost {
        RenewalOwn(c, es, s, q);
      }
    }
  }

  lemma {:induction false} OwnId(es: seq<Entry>, q: nat) returns (x: Id)
    requires q < |es| && HasOwnId(es, q)
    ensures x in es[q].ids && forall s | 0 <= s < |es| && s != q :: x !in es[s].ids
  {
    x :| x in es[q].ids && forall s | 0 <= s < |es| && s != q :: x !in es[s].ids;
  }

  /** An entry with an id of its own does not lose it. */
  lemma {:induction false} OwnerKeeps(c: Codec, es: seq<Entry>, t: nat, claimed: set<Id>, taken: set<Id>,
          lost: set<nat>, q: nat)
    requires PrefixSafe(c, es) && Fair(c, es, t, claimed, taken, lost) && t < |es| && (q in lost || q == t)
    requires q < |es| && forall x | x in es[q].ids :: x in claimed
    ensures !HasOwnId(es, q)
  {
    hide *;
    if HasOwnId(es, q) {
      var x := OwnId(es, q);
      OwnUnclaimed(c, es, t, claimed, taken, lost, q, x);
    }
  }

  /** Of two entries with one content not both can lose all their ids. */
  lemma {:induction false} NotBothLost(c: Codec, es: seq<Entry>, t: nat, claimed: set<Id>, taken: set<Id>,
          lost: set<nat>, r: nat)
    requires PrefixSafe(c, es) && Fair(c, es, t, claimed, taken, lost) && t < |es| && r < t && r in lost
    requires forall x | x in es[t].ids :: x in claimed
    requires forall x | x in es[r].ids :: x in claimed
    ensures Payload(es[r].row) != Payload(es[t].row)
  {
    hide *;
    OwnerKeeps(c, es, t, claimed, taken, lost, r);
    OwnerKeeps(c, es, t, claimed, taken, lost, t);
    SafePair(c, es, r, t, Num(0));
  }

  /** Nobody has claimed an id that stands on the band value of an entry that has lost all its ids. */
  lemma {:induction false} BandUnclaimed(c: Codec, es: seq<Entry>, t: nat, claimed: set<Id>, taken: set<Id>,
          lost: set<nat>, z: Id)
    requires PrefixSafe(c, es) && Fair(c, es, t, claimed, taken, lost) && t < |es|
    requires forall x | x in es[t].ids :: x in claimed
    requires StandsOn(z, HashBand(c, Payload(es[t].row)))
    ensures z !in claimed
  {
    hide *;
    if z in claimed {
      var s := Claimant(c, es, t, claimed, taken, lost, z);
      SafePair(c, es, s, t, z);
      if s in lost {
        SafeEntry(c, es, s);
        RenewedStands(c, es[s]);
        StandsOnce(z, HashBand(c, Payload(es[s].row)), HashBand(c, Payload(es[t].row)));
        NotBothLost(c, es, t, claimed, taken, lost, s);
      }
    }
  }

  /** Nor does the allocator know it. */
  lemma {:induction false} BandFree(c: Codec, es: seq<Entry>, t: nat, claimed: set<Id>, taken: set<Id>, lost: set<nat>,
          z: Id)
    requires PrefixSafe(c, es) && Fair(c, es, t, claimed, taken, lost) && t < |es|
    requires forall x | x in es[t].ids :: x in claimed
    requires StandsOn(z, HashBand(c, Payload(es[t].row)))
    ensures z !in claimed && z !in taken && z !in es[t].ids
  {
    hide *;
    BandUnclaimed(c, es, t, claimed, taken, lost, z);
    if z in taken {
      var r := Knower(c, es, t, claimed, taken, lost, z);
      SafePair(c, es, r, t, z);
    }
  }

  lemma {:induction false} Knower(c: Codec, es: seq<Entry>, t: nat, claimed: set<Id>, taken: set<Id>, lost: set<nat>,
          z: Id)
    returns (r: nat)
    requires Fair(c, es, t, claimed, taken, lost) && z in taken && z !in claimed
    ensures r < |es| && z in es[r].ids
  {
    assert Candidate(es, z);
    r :| 0 <= r < |es| && z in es[r].ids;
  }

  lemma {:induction false} FreshIsRenewed(c: Codec, e: Entry, taken: set<Id>)
    requires Like(e).Some? && Numeric(Like(e).value) && c.digest(Payload(e.row)) != ""
    requires Num(HashBand(c, Payload(e.row))) !in taken
    ensures FreshId(c, Like(e), c.digest(Payload(e.row)), taken) == Renewed(c, e)
  {
    UnsaltedWhenFree(c, c.digest(Payload(e.row)), taken);
  }

  lemma {:induction false} NothingOwn(e: Entry, claimed: set<Id>)
    requires OwnChoice(e, claimed).None?
    ensures forall x | x in e.ids :: x in claimed
  {
    SortPermutes(IdLe, e.ids);
  }

  lemma {:induction false} ChoiceRenews(c: Codec, e: Entry, claimed: set<Id>, taken: set<Id>)
    requires OwnChoice(e, claimed).None? && Like(e).Some?
    requires FreshId(c, Like(e), c.digest(Payload(e.row)), taken) == Renewed(c, e)
    ensures Choice(c, e, claimed, taken) == Some(Renewed(c, e))
  {
  }

  /** An entry without a free candidate is renumbered to its unsalted home, which nobody holds. */
  lemma {:induction false} LoserRenewed(c: Codec, es: seq<Entry>, t: nat, claimed: set<Id>, taken: set<Id>,
          lost: set<nat>)
    requires PrefixSafe(c, es) && Fair(c, es, t, claimed, taken, lost) && t < |es|
    requires OwnChoice(es[t], claimed).None? && Like(es[t]).Some?
    ensures forall x | x in es[t].ids :: x in claimed
    ensures Choice(c, es[t], claimed, taken) == Some(Renewed(c, es[t]))
    ensures Renewed(c, es[t]) !in claimed && Renewed(c, es[t]) !in es[t].ids
  {
    hide *;
    NothingOwn(es[t], claimed);
    SafeEntry(c, es, t);
    RenewedStands(c, es[t]);
    NumberStands(HashBand(c, Payload(es[t].row)));
    BandFree(c, es, t, claimed, taken, lost, Renewed(c, es[t]));
    BandFree(c, es, t, claimed, taken, lost, Num(HashBand(c, Payload(es[t].row))));
    FreshIsRenewed(c, es[t], taken);
    ChoiceRenews(c, es[t], claimed, taken);
  }

  // ---------------------------------------------------------------- the loop

  lemma {:induction false} KeeperTakes(c: Codec, e: Entry, claimed: set<Id>, taken: set<Id>)
    requires OwnChoice(e, claimed).Some? && (e.baseId.Some? ==> e.baseId.value in e.ids)
    ensures var id := Choice(c, e, claimed, taken);
      id.Some? && id.value in e.ids && id.value !in claimed
  {
    SortPermutes(IdLe, e.ids);
  }

  lemma {:induction false} KeeperStep(c: Codec, es: seq<Entry>, t: nat, claimed: set<Id>, taken: set<Id>,
          lost: set<nat>)
    requires PrefixSafe(c, es) && Fair(c, es, t, claimed, taken, lost) && t < |es| && OwnChoice(es[t], claimed).Some?
    ensures var id := Choice(c, es[t], claimed, taken);
      && id.Some? && id.value !in claimed
      && Fair(c, es, t + 1, Added(claimed, id), Added(taken, id), lost)
  {
    hide *;
    SafeEntry(c, es, t);
    KeeperTakes(c, es[t], claimed, taken);
    FairKept(c, es, t, claimed, taken, lost, Choice(c, es[t], claimed, taken));
  }

  lemma {:induction false} FairKept(c: Codec, es: seq<Entry>, t: nat, claimed: set<Id>, taken: set<Id>, lost: set<nat>,
          id: Option<Id>)
    requires Fair(c, es, t, claimed, taken, lost) && t < |es| && id.Some? && id.value in es[t].ids
    ensures Fair(c, es, t + 1, Added(claimed, id), Added(taken, id), lost)
  {
    forall z | z in claimed + {id.value} ensures Claimed(c, es, t + 1, lost, z) {
      ClaimsGrow(c, es, t, claimed, lost, lost, id.value, z);
    }
  }

  lemma {:induction false} LoserStep(c: Codec, es: seq<Entry>, t: nat, claimed: set<Id>, taken: set<Id>, lost: set<nat>)
    requires PrefixSafe(c, es) && Fair(c, es, t, claimed, taken, lost) && t < |es|
    requires OwnChoice(es[t], claimed).None? && Like(es[t]).Some?
    ensures var id := Choice(c, es[t], claimed, taken);
      && id.Some? && id.value !in claimed
      && Fair(c, es, t + 1, Added(claimed, id), Added(taken, id), lost + {t})
  {
    hide *;
    LoserRenewed(c, es, t, claimed, taken, lost);
    FairLost(c, es, t, claimed, taken, lost, Some(Renewed(c, es[t])));
  }

  lemma {:induction false} FairLost(c: Codec, es: seq<Entry>, t: nat, claimed: set<Id>, taken: set<Id>, lost: set<nat>,
          id: Option<Id>)
    requires Fair(c, es, t, claimed, taken, lost) && t < |es| && Like(es[t]).Some?
    requires id == Some(Renewed(c, es[t])) && id.value !in es[t].ids && forall x | x in es[t].ids :: x in claimed
    ensures Fair(c, es, t + 1, Added(claimed, id), Added(taken, id), lost + {t})
  {
    forall z | z in claimed + {id.value} ensures Claimed(c, es, t + 1, lost + {t}, z) {
      ClaimsGrow(c, es, t, claimed, lost, lost + {t}, id.value, z);
    }
  }

  lemma {:induction false} ClaimsGrow(c: Codec, es: seq<Entry>, t: nat, claimed: set<Id>, lost: set<nat>,
          more: set<nat>, id: Id, z: Id)
    requires t < |es| && z in claimed + {id} && (z in claimed ==> Claimed(c, es, t, lost, z))
    requires (more == lost && t !in lost && id in es[t].ids)
          || (more == lost + {t} && Like(es[t]).Some? && id == Renewed(c, es[t]))
    ensures Claimed(c, es, t + 1, more, z)
  {
    if z in claimed {
      var s: nat :| ClaimedAs(c, es, t, lost, z, s);
      assert ClaimedAs(c, es, t + 1, more, z, s);
    } else {
      assert ClaimedAs(c, es, t + 1, more, z, t);
    }
  }

  lemma {:induction false} NobodyStep(c: Codec, es: seq<Entry>, t: nat, claimed: set<Id>, taken: set<Id>,
          lost: set<nat>)
    requires Fair(c, es, t, claimed, taken, lost) && t < |es| && OwnChoice(es[t], claimed).None? && Like(es[t]).None?
    ensures Choice(c, es[t], claimed, taken).None? && RowId(es[t].row).None?
    ensures Fair(c, es, t + 1, claimed, taken, lost)
  {
    forall z | z in claimed ensures Claimed(c, es, t + 1, lost, z) {
      var s: nat :| ClaimedAs(c, es, t, lost, z, s);
      assert ClaimedAs(c, es, t + 1, lost, z, s);
    }
  }

  lemma {:induction false} AssignPrefixed(c: Codec, es: seq<Entry>, t: nat, claimed: set<Id>, taken: set<Id>,
          lost: set<nat>)
    requires PrefixSafe(c, es) && Fair(c, es, t, claimed, taken, lost)
    ensures NoRepeatedIds(Assign(c, es[t..], claimed, taken))
    ensures forall row | row in Assign(c, es[t..], claimed, taken) :: RowId(row).Some? ==> row.id.value !in claimed
    decreases |es| - t
  {
    if t < |es| {
      var e, id := es[t], Choice(c, es[t], claimed, taken);
      if OwnChoice(e, claimed).Some? {
        KeeperStep(c, es, t, claimed, taken, lost);
        AssignPrefixed(c, es, t + 1, Added(claimed, id), Added(taken, id), lost);
      } else if Like(e).Some? {
        LoserStep(c, es, t, claimed, taken, lost);
        AssignPrefixed(c, es, t + 1, Added(claimed, id), Added(taken, id), lost + {t});
      } else {
        NobodyStep(c, es, t, claimed, taken, lost);
        AssignPrefixed(c, es, t + 1, Added(claimed, id), Added(taken, id), lost);
      }
      AssignStep(c, es, t, claimed, taken);
      OneMore(WithId(e.row, id), Assign(c, es[t + 1..], Added(claimed, id), Added(taken, id)), claimed, id);
    }
  }

  // ---------------------------------------------------------------- from boards to entries

  function CarriesId(x: Id): Cluster -> bool {
    (cu: Cluster) => x in ClusterIds(cu)
  }

  /** One of the cluster's ids is on no other cluster. */
  ghost predicate HasSoleId(ordered: seq<Cluster>, cu: Cluster) {
    exists x :: x in ClusterIds(cu) && |Filter(CarriesId(x), ordered)| <= 1
  }

  /** Different contents have different band values; what stands on the band value of a content is that content; and
      of two clusters of one content that stay apart, one has an id of its own. */
  ghost predicate BandsClear(c: Codec, ordered: seq<Cluster>) {
    && (forall p, q | p in Contents(ordered) && q in Contents(ordered) && p != q :: HashBand(c, p) != HashBand(c, q))
    && (forall cu, x, p | cu in ordered && x in ClusterIds(cu) && p in Contents(ordered)
        && StandsOn(x, HashBand(c, p)) ::
          Payload(cu.row) == p)
    && (forall p, i, j | p in Contents(ordered) && !Collapses(ordered, Group(ordered, p))
        && 0 <= i < j < |Group(ordered, p)| ::
          HasSoleId(ordered, Group(ordered, p)[i]) || HasSoleId(ordered, Group(ordered, p)[j]))
  }

  lemma {:induction false} Joint<T>(a: seq<T>, b: seq<T>, r: nat)
    requires r < |a + b|
    ensures (a + b)[r] == if r < |a| then a[r] else b[r - |a|]
  {
  }

  lemma {:induction false} OffsetIs(ordered: seq<Cluster>, keys: seq<Row>, front: seq<Row>, i: nat)
    requires i <= |front| && front <= keys
    ensures Offset(ordered, keys, i) == Offset(ordered, front, i)
    ensures Offset(ordered, front, |front|) == |Logical(ordered, front)|
  {
    assert keys[..i] == front[..i] && front[..|front|] == front;
  }

  /** Which group an entry belongs to, and its place there. */
  lemma {:induction false} EntryPlace(ordered: seq<Cluster>, keys: seq<Row>, r: nat) returns (i: nat, k: nat)
    requires r < |Logical(ordered, keys)|
    ensures i < |keys| && k < |EntriesOf(ordered, Group(ordered, keys[i]))| && r == Offset(ordered, keys, i) + k
    ensures Logical(ordered, keys)[r] == EntriesOf(ordered, Group(ordered, keys[i]))[k]
    decreases |keys|
  {
    hide *;
    SomeKey(ordered, keys);
    var n := |keys| - 1;
    LastSplit(keys);
    LogicalSnoc(ordered, keys[..n], keys[n]);
    Joint(Logical(ordered, keys[..n]), EntriesOf(ordered, Group(ordered, keys[n])), r);
    if r < |Logical(ordered, keys[..n])| {
      i, k := EntryPlace(ordered, keys[..n], r);
      OffsetIs(ordered, keys, keys[..n], i);
    } else {
      i, k := n, r - |Logical(ordered, keys[..n])|;
      OffsetIs(ordered, keys, keys[..n], n);
    }
  }

  lemma {:induction false} SomeKey(ordered: seq<Cluster>, keys: seq<Row>)
    requires |Logical(ordered, keys)| > 0
    ensures |keys| > 0
  {
  }

  lemma {:induction false} OffsetMeans(ordered: seq<Cluster>, keys: seq<Row>, i: nat)
    requires i <= |keys|
    ensures Offset(ordered, keys, i) == |Logical(ordered, keys[..i])|
  {
  }

  lemma {:induction false} EntryAt(ordered: seq<Cluster>, keys: seq<Row>, i: nat, k: nat)
    requires i < |keys| && k < |EntriesOf(ordered, Group(ordered, keys[i]))|
    ensures Offset(ordered, keys, i) + k < |Logical(ordered, keys)|
    ensures Logical(ordered, keys)[Offset(ordered, keys, i) + k] == EntriesOf(ordered, Group(ordered, keys[i]))[k]
  {
    hide *;
    PartOfLogical(ordered, keys, i);
    OffsetMeans(ordered, keys, i);
    PrefixAt(Logical(ordered, keys[..i]), EntriesOf(ordered, Group(ordered, keys[i])), Logical(ordered, keys), k);
  }

  lemma {:induction false} SinglePlain(ordered: seq<Cluster>, p: Row, k: nat)
    requires !Collapses(ordered, Group(ordered, p)) && k < |Group(ordered, p)|
    ensures k < |EntriesOf(ordered, Group(ordered, p))|
    ensures EntriesOf(ordered, Group(ordered, p))[k] == Single(Group(ordered, p)[k])
  {
  }

  lemma {:induction false} EntryShows(ordered: seq<Cluster>, p: Row, k: nat)
    requires k < |EntriesOf(ordered, Group(ordered, p))|
    ensures Payload(EntriesOf(ordered, Group(ordered, p))[k].row) == p
  {
    assert Group(ordered, p)[k] in Group(ordered, p);
  }

  /** Entries of one content come from one group. */
  lemma {:induction false} SameContentPlaces(ordered: seq<Cluster>, keys: seq<Row>, s: nat, t: nat)
    returns (p: Row, i: nat, j: nat)
    requires NoDuplicates(keys) && s < |Logical(ordered, keys)| && t < |Logical(ordered, keys)|
    requires Payload(Logical(ordered, keys)[s].row) == Payload(Logical(ordered, keys)[t].row)
    ensures p in keys && i < |EntriesOf(ordered, Group(ordered, p))| && j < |EntriesOf(ordered, Group(ordered, p))|
    ensures Payload(Logical(ordered, keys)[s].row) == p
    ensures Logical(ordered, keys)[s] == EntriesOf(ordered, Group(ordered, p))[i]
    ensures Logical(ordered, keys)[t] == EntriesOf(ordered, Group(ordered, p))[j]
    ensures i - j == s - t
  {
    hide *;
    var m, n;
    m, i := EntryPlace(ordered, keys, s);
    n, j := EntryPlace(ordered, keys, t);
    p := keys[m];
    EntryShows(ordered, keys[m], i);
    EntryShows(ordered, keys[n], j);
    OneIndex(keys, m, n);
  }

  lemma {:induction false} OneIndex<T>(s: seq<T>, m: nat, n: nat)
    requires NoDuplicates(s) && m < |s| && n < |s| && s[m] == s[n]
    ensures m == n && s[m] in s
  {
  }

  lemma {:induction false} EntryContent(ordered: seq<Cluster>, keys: seq<Row>, s: nat, x: Id)
    returns (p: Row, cu: Cluster)
    requires s < |Logical(ordered, keys)|
    requires var e := Logical(ordered, keys)[s]; x in e.ids || e.baseId == Some(x) || Like(e) == Some(x)
    ensures p in keys && Payload(Logical(ordered, keys)[s].row) == p
    ensures cu in ordered && Payload(cu.row) == p && x in ClusterIds(cu)
  {
    var i, k := EntryPlace(ordered, keys, s);
    p := keys[i];
    EntryShows(ordered, p, k);
    EntryFromGroup(ordered, p, Logical(ordered, keys)[s], x);
    cu :| cu in Group(ordered, p) && x in ClusterIds(cu);
  }

  /** A group with a derived id is one entry. */
  lemma {:induction false} DerivedGroupFolds(ordered: seq<Cluster>, p: Row, k: nat, x: Id)
    requires k < |EntriesOf(ordered, Group(ordered, p))| && x in EntriesOf(ordered, Group(ordered, p))[k].ids
    requires IsDerived(x)
    ensures |EntriesOf(ordered, Group(ordered, p))| == 1
  {
    var g := Group(ordered, p);
    if 1 < |g| && k < |g| && x in ClusterIds(g[k]) {
      DerivedCollapses(ordered, g, k, x);
    }
  }

  lemma {:induction false} DerivedCollapses(ordered: seq<Cluster>, g: seq<Cluster>, k: nat, x: Id)
    requires 1 < |g| && k < |g| && x in ClusterIds(g[k]) && IsDerived(x)
    ensures Collapses(ordered, g)
  {
    assert g[k] in g;
    assert x in AllIds(g);
    assert x in GroupIds(g);
  }

  lemma {:induction false} StandsDerived(x: Id, n: nat)
    requires StandsOn(x, n) && n >= DERIVED_ID_BASE
    ensures IsDerived(x)
  {
    DecimalRoundTrip(n);
  }

  // ---------------------------------------------------------------- ids of one's own

  lemma {:induction false} NestedFilter<T(!new)>(a: T -> bool, b: T -> bool, s: seq<T>)
    ensures |Filter(a, Filter(b, s))| <= |Filter(a, s)|
  {
    if s != [] {
      var front, last := s[..|s| - 1], s[|s| - 1];
      NestedFilter(a, b, front);
      FilterSnoc(a, Filter(b, front), last);
    }
  }

  lemma {:induction false} TwoKept<T(!new)>(keep: T -> bool, s: seq<T>, i: nat, j: nat)
    requires i < j < |s| && keep(s[i]) && keep(s[j])
    ensures |Filter(keep, s)| >= 2
  {
    if j < |s| - 1 {
      TwoKept(keep, s[..|s| - 1], i, j);
    } else {
      assert s[..|s| - 1][i] in s[..|s| - 1];
      assert s[i] in Filter(keep, s[..|s| - 1]);
    }
  }

  lemma {:induction false} TwoDifferentKept<T(!new)>(keep: T -> bool, s: seq<T>, x: T, y: T)
    requires x in s && y in s && x != y && keep(x) && keep(y)
    ensures |Filter(keep, s)| >= 2
  {
    var i :| 0 <= i < |s| && s[i] == x;
    var j :| 0 <= j < |s| && s[j] == y;
    TwoKept(keep, s, if i < j then i else j, if i < j then j else i);
  }

  /** Two entries left apart in one group do not share an id that one cluster only carries. */
  lemma {:induction false} SoleInGroup(ordered: seq<Cluster>, p: Row, i: nat, j: nat, x: Id)
    requires !Collapses(ordered, Group(ordered, p)) && i < |Group(ordered, p)| && j < |Group(ordered, p)| && i != j
    requires |Filter(CarriesId(x), ordered)| <= 1 && x in ClusterIds(Group(ordered, p)[i])
    ensures x !in ClusterIds(Group(ordered, p)[j])
  {
    var g := Group(ordered, p);
    if x in ClusterIds(g[j]) {
      TwoKept(CarriesId(x), g, if i < j then i else j, if i < j then j else i);
      NestedFilter(CarriesId(x), PaysAs(p), ordered);
    }
  }

  lemma {:induction false} SingleAt(ordered: seq<Cluster>, p: Row, k: nat)
    requires !Collapses(ordered, Group(ordered, p)) && k < |Group(ordered, p)|
    ensures |EntriesOf(ordered, Group(ordered, p))| == |Group(ordered, p)|
    ensures EntriesOf(ordered, Group(ordered, p))[k].ids == ClusterIds(Group(ordered, p)[k])
    ensures Group(ordered, p)[k] in ordered && Payload(Group(ordered, p)[k].row) == p
  {
    assert Group(ordered, p)[k] in Group(ordered, p);
  }

  /** An id that one cluster only carries stands in no entry but that cluster's. */
  lemma {:induction false} SoleElsewhere(ordered: seq<Cluster>, keys: seq<Row>, m: nat, k: nat, r: nat, x: Id)
    requires NoDuplicates(keys) && m < |keys| && !Collapses(ordered, Group(ordered, keys[m]))
    requires k < |Group(ordered, keys[m])| && x in ClusterIds(Group(ordered, keys[m])[k])
    requires r < |Logical(ordered, keys)| && r != Offset(ordered, keys, m) + k
    requires |Filter(CarriesId(x), ordered)| <= 1
    ensures x !in Logical(ordered, keys)[r].ids
  {
    hide *;
    if x in Logical(ordered, keys)[r].ids {
      var n, j := EntryPlace(ordered, keys, r);
      if keys[n] == keys[m] {
        OneIndex(keys, n, m);
        PlainGroup(ordered, keys[m]);
        SingleAt(ordered, keys[m], j);
        SoleInGroup(ordered, keys[m], k, j, x);
      } else {
        SoleOutside(ordered, keys[n], j, keys[m], k, x);
      }
    }
  }

  lemma {:induction false} PlainGroup(ordered: seq<Cluster>, p: Row)
    requires !Collapses(ordered, Group(ordered, p))
    ensures |EntriesOf(ordered, Group(ordered, p))| == |Group(ordered, p)|
  {
  }

  lemma {:induction false} SoleOutside(ordered: seq<Cluster>, q: Row, j: nat, p: Row, k: nat, x: Id)
    requires j < |EntriesOf(ordered, Group(ordered, q))| && x in EntriesOf(ordered, Group(ordered, q))[j].ids && p != q
    requires k < |Group(ordered, p)| && x in ClusterIds(Group(ordered, p)[k])
    ensures |Filter(CarriesId(x), ordered)| >= 2
  {
    var y := Group(ordered, p)[k];
    assert y in Group(ordered, p);
    EntryFromGroup(ordered, q, EntriesOf(ordered, Group(ordered, q))[j], x);
    var cu :| cu in Group(ordered, q) && x in ClusterIds(cu);
    TwoDifferentKept(CarriesId(x), ordered, cu, y);
  }

  lemma {:induction false} EntryOwns(ordered: seq<Cluster>, keys: seq<Row>, m: nat, k: nat, s: nat)
    requires NoDuplicates(keys) && m < |keys| && !Collapses(ordered, Group(ordered, keys[m]))
    requires k < |Group(ordered, keys[m])| && HasSoleId(ordered, Group(ordered, keys[m])[k])
    requires s == Offset(ordered, keys, m) + k && s < |Logical(ordered, keys)|
    requires Logical(ordered, keys)[s].ids == ClusterIds(Group(ordered, keys[m])[k])
    ensures HasOwnId(Logical(ordered, keys), s)
  {
    var x :| x in ClusterIds(Group(ordered, keys[m])[k]) && |Filter(CarriesId(x), ordered)| <= 1;
    forall r | 0 <= r < |Logical(ordered, keys)| && r != s ensures x !in Logical(ordered, keys)[r].ids {
      SoleElsewhere(ordered, keys, m, k, r, x);
    }
  }

  // ---------------------------------------------------------------- the claim

  lemma {:induction false} ClearPair(c: Codec, ordered: seq<Cluster>, p: Row, i: nat, j: nat)
    requires BandsClear(c, ordered) && p in Contents(ordered) && !Collapses(ordered, Group(ordered, p))
    requires i < j < |Group(ordered, p)|
    ensures HasSoleId(ordered, Group(ordered, p)[i]) || HasSoleId(ordered, Group(ordered, p)[j])
  {
  }

  lemma {:induction false} FoldedSize(ordered: seq<Cluster>, p: Row)
    requires Collapses(ordered, Group(ordered, p))
    ensures |EntriesOf(ordered, Group(ordered, p))| == 1
  {
  }

  /** Of two entries of one content, one has an id of its own. */
  lemma {:induction false} OneOwns(c: Codec, ordered: seq<Cluster>, keys: seq<Row>, s: nat, t: nat)
    requires BandsClear(c, ordered) && keys == Contents(ordered) && NoDuplicates(keys)
    requires s < t < |Logical(ordered, keys)|
    requires Payload(Logical(ordered, keys)[s].row) == Payload(Logical(ordered, keys)[t].row)
    ensures HasOwnId(Logical(ordered, keys), s) || HasOwnId(Logical(ordered, keys), t)
  {
    hide *;
    var m, i := EntryPlace(ordered, keys, s);
    var n, j := EntryPlace(ordered, keys, t);
    EntryShows(ordered, keys[m], i);
    EntryShows(ordered, keys[n], j);
    OneIndex(keys, m, n);
    var p := keys[m];
    if Collapses(ordered, Group(ordered, p)) {
      FoldedSize(ordered, p);
    } else {
      PlainAt(ordered, p, i);
      PlainAt(ordered, p, j);
      ClearPair(c, ordered, p, i, j);
      if HasSoleId(ordered, Group(ordered, p)[i]) {
        EntryOwns(ordered, keys, m, i, s);
      } else {
        EntryOwns(ordered, keys, m, j, t);
      }
    }
  }

  lemma {:induction false} PlainAt(ordered: seq<Cluster>, p: Row, k: nat)
    requires !Collapses(ordered, Group(ordered, p)) && k < |EntriesOf(ordered, Group(ordered, p))|
    ensures k < |Group(ordered, p)| && EntriesOf(ordered, Group(ordered, p))[k].ids == ClusterIds(Group(ordered, p)[k])
  {
    SingleAt(ordered, p, k);
  }

  /** What stands on the band value of an entry's content is that entry's. */
  lemma {:induction false} BandOwner(c: Codec, ordered: seq<Cluster>, keys: seq<Row>, s: nat, t: nat, x: Id)
    requires BandsClear(c, ordered) && keys == Contents(ordered) && NoDuplicates(keys)
    requires s < |Logical(ordered, keys)| && t < |Logical(ordered, keys)|
    requires x in Logical(ordered, keys)[s].ids && StandsOn(x, HashBand(c, Payload(Logical(ordered, keys)[t].row)))
    ensures s == t
  {
    hide *;
    var q := EntryKey(ordered, keys, t);
    var r, cu := EntryContent(ordered, keys, s, x);
    ClearBand(c, ordered, cu, x, q);
    var p, i, j := SameContentPlaces(ordered, keys, s, t);
    BandHigh(c, q);
    StandsDerived(x, HashBand(c, q));
    DerivedGroupFolds(ordered, p, i, x);
  }

  lemma {:induction false} BandHigh(c: Codec, p: Row)
    ensures HashBand(c, p) >= DERIVED_ID_BASE
  {
  }

  lemma {:induction false} EntryKey(ordered: seq<Cluster>, keys: seq<Row>, s: nat) returns (p: Row)
    requires s < |Logical(ordered, keys)|
    ensures p in keys && Payload(Logical(ordered, keys)[s].row) == p
  {
    var i, k := EntryPlace(ordered, keys, s);
    p := keys[i];
    EntryShows(ordered, p, k);
  }

  lemma {:induction false} ClearBand(c: Codec, ordered: seq<Cluster>, cu: Cluster, x: Id, p: Row)
    requires BandsClear(c, ordered) && cu in ordered && x in ClusterIds(cu) && p in Contents(ordered)
    requires StandsOn(x, HashBand(c, p))
    ensures Payload(cu.row) == p
  {
  }

  /** The payload's hash is a text, never the empty one. */
  ghost predicate Hashed(c: Codec) {
    forall p :: c.digest(p) != ""
  }

  lemma {:induction false} EntriesPrefixSafe(c: Codec, ordered: seq<Cluster>)
    requires BandsClear(c, ordered) && Hashed(c)
    requires forall e | e in Logical(ordered, Contents(ordered)) :: Like(e).Some? ==> Numeric(Like(e).value)
    ensures PrefixSafe(c, Logical(ordered, Contents(ordered)))
  {
    var keys := Contents(ordered);
    var es := Logical(ordered, keys);
    forall t | 0 <= t < |es| && es[t].baseId.Some? ensures es[t].baseId.value in es[t].ids {
      BaseIdListed(ordered, keys, t);
    }
    forall s, t | 0 <= s < |es| && 0 <= t < |es| && Payload(es[s].row) != Payload(es[t].row)
      ensures HashBand(c, Payload(es[s].row)) != HashBand(c, Payload(es[t].row))
    {
      var p := EntryKey(ordered, keys, s);
      var q := EntryKey(ordered, keys, t);
    }
    forall s, t, x | 0 <= s < |es| && 0 <= t < |es| && x in es[s].ids && StandsOn(x, HashBand(c, Payload(es[t].row)))
      ensures s == t
    {
      BandOwner(c, ordered, keys, s, t, x);
    }
    forall s, t | 0 <= s < t < |es| && Payload(es[s].row) == Payload(es[t].row)
      ensures HasOwnId(es, s) || HasOwnId(es, t)
    {
      OneOwns(c, ordered, keys, s, t);
    }
  }

  lemma {:induction false} BaseIdListed(ordered: seq<Cluster>, keys: seq<Row>, t: nat)
    requires t < |Logical(ordered, keys)| && Logical(ordered, keys)[t].baseId.Some?
    ensures Logical(ordered, keys)[t].baseId.value in Logical(ordered, keys)[t].ids
  {
    hide *;
    var i, k := EntryPlace(ordered, keys, t);
    GroupBaseId(ordered, Group(ordered, keys[i]), k);
  }

  lemma {:induction false} GroupBaseId(ordered: seq<Cluster>, g: seq<Cluster>, k: nat)
    requires k < |EntriesOf(ordered, g)| && EntriesOf(ordered, g)[k].baseId.Some?
    ensures EntriesOf(ordered, g)[k].baseId.value in EntriesOf(ordered, g)[k].ids
  {
    GroupIdsHold(g);
    assert g[0] in g && g[k] in g;
    if g[0].baseId.Some? {
      assert g[0].baseId.value in AllIds(g);
    }
  }

  /** Every id the allocator starts from is some entry's candidate. */
  lemma {:induction false} TakenListed(ordered: seq<Cluster>, z: Id)
    requires z in InitialTaken(ordered)
    ensures Candidate(Logical(ordered, Contents(ordered)), z)
  {
    hide *;
    var cu, m, k := TakenPlace(ordered, z);
    var keys := Contents(ordered);
    PartOfLogical(ordered, keys, m);
    var j := EntryHolds(ordered, keys[m], k, z);
    PrefixAt(Logical(ordered, keys[..m]), EntriesOf(ordered, Group(ordered, keys[m])), Logical(ordered, keys), j);
    CandidateAt(Logical(ordered, keys), |Logical(ordered, keys[..m])| + j, z);
  }

  lemma {:induction false} CandidateAt(es: seq<Entry>, r: nat, z: Id)
    requires r < |es| && z in es[r].ids
    ensures Candidate(es, z)
  {
  }

  lemma {:induction false} TakenPlace(ordered: seq<Cluster>, z: Id) returns (cu: Cluster, m: nat, k: nat)
    requires z in InitialTaken(ordered)
    ensures m < |Contents(ordered)| && k < |Group(ordered, Contents(ordered)[m])|
    ensures z in ClusterIds(Group(ordered, Contents(ordered)[m])[k])
  {
    TakenFromRows(ordered, z);
    cu :| cu in ordered && RowId(cu.row) == Some(z);
    var keys, p := Contents(ordered), Payload(cu.row);
    assert p in keys;
    m :| 0 <= m < |keys| && keys[m] == p;
    assert cu in Group(ordered, p);
    k :| 0 <= k < |Group(ordered, p)| && Group(ordered, p)[k] == cu;
    GroupIdsHold(Group(ordered, p));
  }

  lemma {:induction false} EntryHolds(ordered: seq<Cluster>, p: Row, k: nat, z: Id) returns (j: nat)
    requires k < |Group(ordered, p)| && z in ClusterIds(Group(ordered, p)[k])
    ensures j < |EntriesOf(ordered, Group(ordered, p))| && z in EntriesOf(ordered, Group(ordered, p))[j].ids
  {
    var g := Group(ordered, p);
    assert g[k] in g;
    assert z in AllIds(g);
    assert z in GroupIds(g);
    j := if Collapses(ordered, g) then 0 else k;
  }

  /** UNIQUE IDS on boards of numbers and prefixed numbers: no id is repeated in the result when different contents
      have different band values, nothing stands on the band value of a content it does not show, and of two rows of
      one content that the merge leaves apart one has an id nobody else carries. */
  lemma {:induction false} UniquePrefixedIds(c: Codec, base: seq<Row>, ours: seq<Row>, theirs: seq<Row>)
    requires NumericBoard(base + ours + theirs) && Hashed(c)
    requires BandsClear(c, Ordered(c, Build(c, Arrivals(base, ours, theirs))))
    ensures NoRepeatedIds(Merged(c, base, ours, theirs))
  {
    var ordered := Ordered(c, Build(c, Arrivals(base, ours, theirs)));
    LikesNumeric(c, base, ours, theirs);
    EntriesPrefixSafe(c, ordered);
    forall z | z in InitialTaken(ordered) ensures Candidate(Logical(ordered, Contents(ordered)), z) {
      TakenListed(ordered, z);
    }
    AssignPrefixed(c, Logical(ordered, Contents(ordered)), 0, {}, InitialTaken(ordered), {});
  }

  lemma {:induction false} LikesNumeric(c: Codec, base: seq<Row>, ours: seq<Row>, theirs: seq<Row>)
    requires NumericBoard(base + ours + theirs)
    ensures var ordered := Ordered(c, Build(c, Arrivals(base, ours, theirs)));
      forall e | e in Logical(ordered, Contents(ordered)) :: Like(e).Some? ==> Numeric(Like(e).value)
  {
    LikesAreInputIds(c, base, ours, theirs);
    var s := IdsOf(base + ours + theirs);
    forall id | id in s ensures Numeric(id) {
      var i :| 0 <= i < |base + ours + theirs| && RowId((base + ours + theirs)[i]) == Some(id);
      assert (base + ours + theirs)[i] in base + ours + theirs;
    }
    var ordered := Ordered(c, Build(c, Arrivals(base, ours, theirs)));
    forall e | e in Logical(ordered, Contents(ordered)) ensures Like(e).Some? ==> Like(e).value in s {
      assert EntryWithin(e, s);
    }
  }
}
