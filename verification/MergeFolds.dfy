/** How many rows of one content a merge leaves: the collapse rule seen from the result. */
module MergeFolds {
  import opened Prelude
  import opened BoardRows
  import opened MergeSpec
  import opened MergeLossless

  function EntryPayload(e: Entry): Row {
    Payload(e.row)
  }

  function Copies(rows: seq<Row>, p: Row): nat {
    multiset(MapSeq(Payload, rows))[p]
  }

  lemma {:induction false} AllOne(s: seq<Row>, p: Row, q: Row)
    requires forall i | 0 <= i < |s| :: s[i] == p
    ensures multiset(s)[q] == if q == p then |s| else 0
  {
    if s != [] {
      AllOne(s[..|s| - 1], p, q);
      LastSplit(s);
    }
  }

  lemma {:induction false} EntriesShow(ordered: seq<Cluster>, p: Row, q: Row)
    ensures multiset(MapSeq(EntryPayload, EntriesOf(ordered, Group(ordered, p))))[q]
         == if q == p then |EntriesOf(ordered, Group(ordered, p))| else 0
  {
    var g := Group(ordered, p);
    var pays := MapSeq(EntryPayload, EntriesOf(ordered, g));
    forall i | 0 <= i < |pays| ensures pays[i] == p {
      assert g[i] in g;
    }
    AllOne(pays, p, q);
  }

  lemma {:induction false} LogicalCount(ordered: seq<Cluster>, keys: seq<Row>, p: Row)
    requires NoDuplicates(keys)
    ensures multiset(MapSeq(EntryPayload, Logical(ordered, keys)))[p]
         == if p in keys then |EntriesOf(ordered, Group(ordered, p))| else 0
  {
    if keys != [] {
      var front, last := keys[..|keys| - 1], keys[|keys| - 1];
      LastSplit(keys);
      assert last !in front;
      LogicalCount(ordered, front, p);
      EntriesShow(ordered, last, p);
      MapAppend(EntryPayload, Logical(ordered, front), EntriesOf(ordered, Group(ordered, last)));
    }
  }

  lemma {:induction false} AssignShows(c: Codec, es: seq<Entry>, claimed: set<Id>, taken: set<Id>)
    ensures MapSeq(Payload, Assign(c, es, claimed, taken)) == MapSeq(EntryPayload, es)
  {
    forall i | 0 <= i < |es| ensures Payload(Assign(c, es, claimed, taken)[i]) == EntryPayload(es[i]) {
      AssignContents(c, es, claimed, taken, i);
    }
  }

  /** COLLAPSE, exactly: the clusters of one content end as one row when they carry an id and one of their ids was
      derived or every one is contested, and otherwise each stays a row of its own. */
  lemma {:induction false} CopiesLeft(c: Codec, base: seq<Row>, ours: seq<Row>, theirs: seq<Row>, p: Row)
    ensures var ordered := Ordered(c, Build(c, Arrivals(base, ours, theirs)));
      var g := Group(ordered, p);
      var folds := GroupIds(g) != [] && (AnyDerived(GroupIds(g)) || AllContested(ordered, GroupIds(g)));
      Copies(Merged(c, base, ours, theirs), p) == if |g| > 1 && folds then 1 else |g|
  {
    var ordered := Ordered(c, Build(c, Arrivals(base, ours, theirs)));
    LogicalCount(ordered, Contents(ordered), p);
    AssignShows(c, Logical(ordered, Contents(ordered)), {}, InitialTaken(ordered));
    if p !in Contents(ordered) {
      forall i | 0 <= i < |ordered| ensures !PaysAs(p)(ordered[i]) {
        assert ordered[i] in ordered;
      }
      FilterNone(PaysAs(p), ordered);
    }
  }
}
