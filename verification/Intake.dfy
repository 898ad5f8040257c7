/** The intake daemon as the stateful object it is, proved to append exactly what the log functions say, and its
    whole life against one pass over the board. */
module Intake {
  import opened Prelude
  import opened IntakeTail
  import opened IntakeLog

  /** The durable side: what is on disk when the process dies. */
  class Ledger {
    var events: Log

    constructor ()
      ensures events == []
    {
      events := [];
    }

    method Append(e: Event)
      modifies this
      ensures events == old(events) + [e]
    {
      events := events + [e];
    }
  }

  /** `load_seen` with the dict's key order. */
  method LoadSeenFile(log: Log) returns (seen: map<string, Source>, order: seq<string>)
    ensures seen == LoadSeen(log) && order == SeenIds(log)
  {
    seen, order := map[], [];
    for n := 0 to |log|
      invariant seen == LoadSeen(log[..n]) && order == SeenIds(log[..n])
      invariant forall id :: id in order <==> id in seen
    {
      LoadSnoc(log[..n], log[n]);
      assert log[..n + 1] == log[..n] + [log[n]];
      if log[n].Seen? {
        if log[n].id !in seen {
          order := order + [log[n].id];
        }
        seen := seen[log[n].id := log[n].source];
      }
    }
    assert log[..|log|] == log;
  }

  datatype Tally = Tally(submitted: nat, resolved: nat, errors: nat, skipped: nat)

  const NOTHING := Tally(0, 0, 0, 0)

  function TallyOne(resolver: string -> Outcome, log: Log, line: Line, tally: Tally): Tally {
    if line == Blank then tally
    else if !Wanted(log, line) then tally.(skipped := tally.skipped + 1)
    else if resolver(line.id) == Clean then tally.(submitted := tally.submitted + 1, resolved := tally.resolved + 1)
    else tally.(submitted := tally.submitted + 1, errors := tally.errors + 1)
  }

  function TallyOf(resolver: string -> Outcome, log: Log, lines: seq<Line>): Tally {
    if lines == [] then NOTHING else
      var front, last := lines[..|lines| - 1], lines[|lines| - 1];
      TallyOne(resolver, PollLog(resolver, log, front), last, TallyOf(resolver, log, front))
  }

  function Inked(lines: seq<Line>): nat {
    if lines == [] then 0 else Inked(lines[..|lines| - 1]) + if lines[|lines| - 1] == Blank then 0 else 1
  }

  class BoardIntake {
    const ledger: Ledger
    const resolver: string -> Outcome
    const parse: Bytes -> Line
    const freshState: bool
    var seen: map<string, Source>
    var tail: Tail

    /** What is in memory is what a reload of the disk would give. */
    ghost predicate Valid()
      reads this, ledger
    {
      seen == LoadSeen(ledger.events)
    }

    constructor (ledger: Ledger, resolver: string -> Outcome, parse: Bytes -> Line)
      modifies ledger
      ensures Valid() && this.ledger == ledger && this.resolver == resolver && this.parse == parse
      ensures ledger.events == BootLog(old(ledger.events)) && tail == START
      ensures freshState <==> LoadSeen(old(ledger.events)) == map[]
    {
      var loaded, order := LoadSeenFile(ledger.events);
      this.ledger, this.resolver, this.parse := ledger, resolver, parse;
      seen, freshState, tail := loaded, loaded == map[], START;
      new;
      ReconcileClaims(order);
    }

    method MarkSeen(id: string, source: Source)
      requires Valid()
      modifies ledger, this`seen
      ensures Valid() && ledger.events == old(ledger.events) + [Seen(id, source)]
    {
      LoadSnoc(ledger.events, Seen(id, source));
      ledger.Append(Seen(id, source));
      seen := seen[id := source];
    }

    method AppendUnseen(e: Event)
      requires Valid() && !e.Seen?
      modifies ledger
      ensures Valid() && ledger.events == old(ledger.events) + [e]
    {
      LoadSnoc(ledger.events, e);
      ledger.Append(e);
    }

    method ReconcileClaims(order: seq<string>)
      requires Valid()
      modifies ledger, this`seen
      ensures Valid() && ledger.events == Recover(old(ledger.events), order)
    {
      for n := 0 to |order|
        invariant Valid() && ledger.events == Recover(old(ledger.events), order[..n])
      {
        var tid := order[n];
        assert order[..n + 1][..n] == order[..n];
        if tid in seen && seen[tid] == Claim {
          AppendUnseen(Record(tid, true));
          MarkSeen(tid, Completed);
        }
      }
      assert order[..|order|] == order;
    }

    method ReadNewBytes(look: Look, backlog: bool) returns (text: Bytes)
      modifies this`tail
      ensures (tail, text) == Read(old(tail), look, backlog)
    {
      if tail.stat == Some((look.size, look.mtime)) {
        return [];
      }
      tail := tail.(stat := Some((look.size, look.mtime)));
      var start := if backlog || look.size < tail.offset then 0 else tail.offset;
      var chunk := if start <= |look.content| then look.content[start..] else [];
      tail := tail.(offset := start + |chunk|);
      var data := tail.carry + chunk;
      var cut := Complete(data);
      if cut == 0 {
        tail := tail.(carry := data);
        assert data[0..] == data;
        return [];
      }
      tail := tail.(carry := data[cut..]);
      return data[..cut];
    }

    /** Runs the resolve and, unless it raises, records and completes it. */
    method ResolveOne(tid: string) returns (outcome: Outcome)
      requires Valid()
      modifies ledger, this`seen
      ensures Valid() && outcome == resolver(tid)
      ensures ledger.events == if outcome == Raised then old(ledger.events) + [Spawn(tid)]
        else old(ledger.events) + [Spawn(tid)] + [Record(tid, outcome != Clean)] + [Seen(tid, Completed)]
    {
      AppendUnseen(Spawn(tid));
      outcome := resolver(tid);
      if outcome == Raised {
        return;
      }
      AppendUnseen(Record(tid, outcome != Clean));
      MarkSeen(tid, Completed);
    }

    /** Claim first, then resolve; a resolve that raises is recorded here. */
    method Submit(tid: string) returns (outcome: Outcome)
      requires Valid()
      modifies ledger, this`seen
      ensures Valid() && outcome == resolver(tid)
      ensures ledger.events
           == old(ledger.events) + [Seen(tid, Claim)] + [Spawn(tid)] + [Record(tid, outcome != Clean)]
               + [Seen(tid, Completed)]
    {
      MarkSeen(tid, Claim);
      outcome := ResolveOne(tid);
      if outcome == Raised {
        AppendUnseen(Record(tid, true));
        MarkSeen(tid, Completed);
      }
    }

    method TakeLine(line: Line, tally: Tally) returns (now: Tally)
      requires Valid()
      modifies ledger, this`seen
      ensures Valid() && ledger.events == PollOne(resolver, old(ledger.events), line)
      ensures now == TallyOne(resolver, old(ledger.events), line, tally)
    {
      now := tally;
      if line == Blank {
        return;
      }
      if line == Malformed || line.id == "" || !line.pending || line.id in seen {
        return now.(skipped := now.skipped + 1);
      }
      now := now.(submitted := now.submitted + 1);
      var outcome := Submit(line.id);
      return if outcome == Clean then now.(resolved := now.resolved + 1) else now.(errors := now.errors + 1);
    }

    method TakeLines(lines: seq<Line>) returns (tally: Tally)
      requires Valid()
      modifies ledger, this`seen
      ensures Valid()
      ensures ledger.events == PollLog(resolver, old(ledger.events), lines)
      ensures tally == TallyOf(resolver, old(ledger.events), lines)
    {
      tally := NOTHING;
      for n := 0 to |lines|
        invariant Valid() && ledger.events == PollLog(resolver, old(ledger.events), lines[..n])
        invariant tally == TallyOf(resolver, old(ledger.events), lines[..n])
      {
        PollStep(resolver, old(ledger.events), lines, n);
        tally := TakeLine(lines[n], tally);
      }
      assert lines[..|lines|] == lines;
    }

    /** One pass: appends what the lines it read call for, and counts what it did. */
    method Poll(look: Look, backlog: bool) returns (tally: Tally)
      requires Valid()
      modifies ledger, this`seen, this`tail
      ensures Valid()
      ensures var (after, text) := Read(old(tail), look, backlog);
        var lines := MapSeq(parse, LinesOf(text).0);
        && tail == after && ledger.events == PollLog(resolver, old(ledger.events), lines)
        && tally == TallyOf(resolver, old(ledger.events), lines)
    {
      var text := ReadNewBytes(look, backlog);
      tally := TakeLines(MapSeq(parse, LinesOf(text).0));
    }

    /** First-boot baseline: marks every id on the board and resolves none. */
    method SeedBoard(content: Bytes) returns (count: nat)
      requires Valid()
      modifies ledger, this`seen
      ensures Valid()
      ensures ledger.events == SeedLog(old(ledger.events), MapSeq(parse, AllLines(content)))
      ensures count == |ledger.events| - |old(ledger.events)|
    {
      count := 0;
      var lines := MapSeq(parse, AllLines(content));
      for n := 0 to |lines|
        invariant Valid() && ledger.events == SeedLog(old(ledger.events), lines[..n])
        invariant count == |ledger.events| - |old(ledger.events)|
      {
        SeedStep(old(ledger.events), lines, n);
        var line := lines[n];
        if line.Row? && line.id != "" && line.id !in seen {
          MarkSeen(line.id, Seeded);
          count := count + 1;
        }
      }
      assert lines[..|lines|] == lines;
    }
  }

  /** `splitlines` of the whole file: a last line without a newline counts. */
  function AllLines(content: Bytes): seq<Bytes> {
    var (lines, rest) := LinesOf(content);
    if rest == [] then lines else lines + [rest]
  }

  /** A last line without a newline counts as if it had one. */
  lemma {:induction false} LastLineCounts(content: Bytes)
    ensures AllLines(content)
         == LinesOf(if content == [] || content[|content| - 1] == NEWLINE then content else content + [NEWLINE]).0
  {
    if content == [] || content[|content| - 1] == NEWLINE {
      LinesEndWhole(content);
    } else {
      assert (content + [NEWLINE])[..|content|] == content;
    }
  }

  lemma {:induction false} PollStep(resolver: string -> Outcome, log: Log, lines: seq<Line>, n: nat)
    requires n < |lines|
    ensures PollLog(resolver, log, lines[..n + 1]) == PollOne(resolver, PollLog(resolver, log, lines[..n]), lines[n])
    ensures TallyOf(resolver, log, lines[..n + 1])
         == TallyOne(resolver, PollLog(resolver, log, lines[..n]), lines[n], TallyOf(resolver, log, lines[..n]))
  {
    assert lines[..n + 1][..n] == lines[..n];
  }

  lemma {:induction false} SeedStep(log: Log, lines: seq<Line>, n: nat)
    requires n < |lines|
    ensures SeedLog(log, lines[..n + 1]) == SeedOne(SeedLog(log, lines[..n]), lines[n])
  {
    assert lines[..n + 1][..n] == lines[..n];
  }

  lemma {:induction false} PollOneFailures(resolver: string -> Outcome, log: Log, line: Line)
    ensures Failures(PollOne(resolver, log, line))
         == Failures(log) + if Wanted(log, line) && resolver(line.id) != Clean then 1 else 0
  {
    if Wanted(log, line) {
      var id := line.id;
      var l1 := log + [Seen(id, Claim)];
      var l2 := l1 + [Spawn(id)];
      var l3 := l2 + [Record(id, resolver(id) != Clean)];
      FailuresSnoc(log, Seen(id, Claim));
      FailuresSnoc(l1, Spawn(id));
      FailuresSnoc(l2, Record(id, resolver(id) != Clean));
      FailuresSnoc(l3, Seen(id, Completed));
    }
  }

  /** The tally adds up: every line is a submission or skipped, every submission a result or an error, the
      submissions are the spawns and the errors are the failed records. */
  lemma {:induction false} TallyAdds(resolver: string -> Outcome, log: Log, lines: seq<Line>)
    ensures var tally, after := TallyOf(resolver, log, lines), PollLog(resolver, log, lines);
      && tally.submitted == tally.resolved + tally.errors == |NewIds(log, lines)|
      && tally.submitted + tally.skipped == Inked(lines)
      && Failures(after) == Failures(log) + tally.errors
  {
    if lines != [] {
      var front, last := lines[..|lines| - 1], lines[|lines| - 1];
      TallyAdds(resolver, log, front);
      PollOneFailures(resolver, PollLog(resolver, log, front), last);
      PollOneSpawns(resolver, PollLog(resolver, log, front), last);
      PollSpawns(resolver, log, front);
    }
    PollSpawns(resolver, log, lines);
  }

  // ---------------------------------------------------------------- a whole life against one pass

  /** The record after a life's polls, each at one look at the board. */
  function Watched(resolver: string -> Outcome, parse: Bytes -> Line, log: Log, looks: seq<Look>): Log {
    if looks == [] then log else
      var front, last := looks[..|looks| - 1], looks[|looks| - 1];
      var text := Read(ReadAll(front).0, last, false).1;
      PollLog(resolver, Watched(resolver, parse, log, front), MapSeq(parse, LinesOf(text).0))
  }

  lemma {:induction false} WatchedIsDelivered(resolver: string -> Outcome, parse: Bytes -> Line, log: Log,
          looks: seq<Look>)
    requires Growing(looks)
    ensures Watched(resolver, parse, log, looks) == PollLog(resolver, log, MapSeq(parse, LinesOf(ReadAll(looks).1).0))
    decreases |looks|
  {
    if looks != [] {
      var front, last := looks[..|looks| - 1], looks[|looks| - 1];
      var delivered, text := ReadAll(front).1, Read(ReadAll(front).0, last, false).1;
      assert Growing(front);
      WatchedIsDelivered(resolver, parse, log, front);
      if front != [] {
        TailerExact(front);
      }
      LinesAppend(delivered, text);
      MapAppend(parse, LinesOf(delivered).0, LinesOf(text).0);
      PollAppend(resolver, log, MapSeq(parse, LinesOf(delivered).0), MapSeq(parse, LinesOf(text).0));
    }
  }

  /** WHOLE LIFE: on a board that only grows, however writers interleave with the polls and however lines are torn
      between them, the daemon does what one pass over the complete lines read would do, and those include
      everything that stood on the board when the last poll looked. */
  lemma {:induction false} LifeIsOnePass(resolver: string -> Outcome, parse: Bytes -> Line, log: Log, looks: seq<Look>)
    requires Growing(looks) && looks != []
    ensures var last, read := looks[|looks| - 1], ReadAll(looks).0.offset;
      && last.size <= read <= |last.content|
      && Watched(resolver, parse, log, looks) == PollLog(resolver, log, MapSeq(parse, LinesOf(last.content[..read]).0))
      && SpawnIds(Watched(resolver, parse, log, looks))
           == SpawnIds(log) + NewIds(log, MapSeq(parse, LinesOf(last.content[..read]).0))
  {
    var last := looks[|looks| - 1];
    TailerExact(looks);
    WatchedIsDelivered(resolver, parse, log, looks);
    DeliveredLines(ReadAll(looks).0, ReadAll(looks).1, last.content);
    PollSpawns(resolver, log, MapSeq(parse, LinesOf(last.content[..ReadAll(looks).0.offset]).0));
  }

  // ---------------------------------------------------------------- crashes and a growing board together

  /** What a settled record says of an id it knows. */
  ghost predicate Answered(log: Log, id: string) {
    && id in LoadSeen(log) && Spawns(log, id) <= 1
    && (LoadSeen(log)[id] == Seeded || (LoadSeen(log)[id] == Completed && exists failed :: Record(id, failed) in log))
  }

  /** One pass over a board's lines leaves every pending id on them answered. */
  lemma {:induction false} PassAnswers(resolver: string -> Outcome, log: Log, lines: seq<Line>, id: string)
    requires Orderly(log) && !Dangling(PhaseOf(log, id)) && id != "" && Row(id, true) in lines
    ensures Answered(PollLog(resolver, log, lines), id)
  {
    var after := PollLog(resolver, log, lines);
    PollOrderly(resolver, log, lines);
    PollPhase(resolver, log, lines, id);
    LoadIsPhase(after, id);
    PhaseShows(after, id);
    SpawnsByPhase(after, id);
  }

  lemma {:induction false} LaterLines(parse: Bytes -> Line, content: Bytes, m: nat, n: nat, line: Line)
    requires m <= n <= |content| && line in MapSeq(parse, LinesOf(content[..m]).0)
    ensures line in MapSeq(parse, LinesOf(content[..n]).0)
  {
    LinesGrow(content, m, n);
    var a, b := MapSeq(parse, LinesOf(content[..m]).0), MapSeq(parse, LinesOf(content[..n]).0);
    var i :| 0 <= i < |a| && a[i] == line;
    assert LinesOf(content[..m]).0[i] == LinesOf(content[..n]).0[i];
    assert b[i] == line;
  }

  /** NO SUBMISSION LOST, from bytes to record: after any run of lives cut short anywhere, a daemon that boots and polls
      a growing board has answered every pending id on the complete lines that stood there when it last looked: the id
      was marked before, or its resolve is completed and recorded, and in either case it was started at most once. */
  lemma {:induction false} SubmissionsAnswered(lives: seq<Life>, resolver: string -> Outcome, parse: Bytes -> Line,
          looks: seq<Look>, id: string)
    requires Growing(looks) && looks != [] && id != ""
    requires var last := looks[|looks| - 1];
      last.size <= |last.content| && Row(id, true) in MapSeq(parse, LinesOf(last.content[..last.size]).0)
    ensures Answered(Watched(resolver, parse, BootLog(RunLog(lives)), looks), id)
  {
    var last, read, log := looks[|looks| - 1], ReadAll(looks).0.offset, BootLog(RunLog(lives));
    RunOrderly(lives);
    BootOrderly(RunLog(lives));
    LifeIsOnePass(resolver, parse, log, looks);
    LaterLines(parse, last.content, last.size, read, Row(id, true));
    PassAnswers(resolver, log, MapSeq(parse, LinesOf(last.content[..read]).0), id);
  }
}
