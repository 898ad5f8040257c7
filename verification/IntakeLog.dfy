/** The intake daemon's durable record: what one boot, poll and seed append to it, and what holds of the record
    after any run of lives that may each be cut short at any append. */
module IntakeLog {
  import opened Prelude

  datatype Source = Claim | Completed | Seeded

  /** One durable step: a row of the seen log, the start of a resolve subprocess, or a row of the resolves log. */
  datatype Event = Seen(id: string, source: Source) | Spawn(id: string) | Record(id: string, failed: bool)

  type Log = seq<Event>

  /** A board line as the daemon reads it; a falsy id is the empty one. */
  datatype Line = Blank | Malformed | Row(id: string, pending: bool)

  /** How a resolve ends: cleanly, reporting its own failure, failing, or raising. */
  datatype Outcome = Clean | Reported | Failed | Raised

  // ---------------------------------------------------------------- reading the record

  /** `load_seen`: the last row of an id wins. */
  function LoadSeen(log: Log): map<string, Source> {
    if log == [] then map[] else
      var seen := LoadSeen(log[..|log| - 1]);
      var last := log[|log| - 1];
      if last.Seen? then seen[last.id := last.source] else seen
  }

  function SeenIds(log: Log): seq<string> {
    if log == [] then [] else
      var ids := SeenIds(log[..|log| - 1]);
      var last := log[|log| - 1];
      if last.Seen? && last.id !in ids then ids + [last.id] else ids
  }

  lemma {:induction false} LoadSnoc(log: Log, e: Event)
    ensures LoadSeen(log + [e]) == if e.Seen? then LoadSeen(log)[e.id := e.source] else LoadSeen(log)
    ensures SeenIds(log + [e]) == if e.Seen? && e.id !in SeenIds(log) then SeenIds(log) + [e.id] else SeenIds(log)
  {
    assert (log + [e])[..|log + [e]| - 1] == log;
  }

  lemma {:induction false} SeenIdsKeys(log: Log)
    ensures forall id :: id in SeenIds(log) <==> id in LoadSeen(log)
  {
    if log != [] {
      SeenIdsKeys(log[..|log| - 1]);
    }
  }

  /** The ids are listed in the order their first rows were written. */
  lemma {:induction false} SeenInOrder(log: Log, i: nat, j: nat) returns (n: nat)
    requires i < j < |SeenIds(log)|
    ensures n < |log| && log[n].Seen? && log[n].id == SeenIds(log)[i]
    ensures forall m | 0 <= m <= n && log[m].Seen? :: log[m].id != SeenIds(log)[j]
  {
    var front, ids := log[..|log| - 1], SeenIds(log[..|log| - 1]);
    if j < |ids| {
      n := SeenInOrder(front, i, j);
    } else {
      SeenIdsAll(front);
      n := SeenIdAt(front, i);
    }
  }

  lemma {:induction false} SeenIdAt(log: Log, i: nat) returns (n: nat)
    requires i < |SeenIds(log)|
    ensures n < |log| && log[n].Seen? && log[n].id == SeenIds(log)[i]
  {
    if i < |SeenIds(log[..|log| - 1])| {
      n := SeenIdAt(log[..|log| - 1], i);
    } else {
      n := |log| - 1;
    }
  }

  lemma {:induction false} SeenIdsAll(log: Log)
    ensures forall m | 0 <= m < |log| && log[m].Seen? :: log[m].id in SeenIds(log)
  {
    if log != [] {
      SeenIdsAll(log[..|log| - 1]);
    }
  }

  // ---------------------------------------------------------------- what the daemon appends

  /** One dangling claim at boot: the error record the crash prevented, then the completing row. */
  function RecoverOne(log: Log, id: string): Log {
    if id in LoadSeen(log) && LoadSeen(log)[id] == Claim then log + [Record(id, true)] + [Seen(id, Completed)] else log
  }

  function Recover(log: Log, ids: seq<string>): Log {
    if ids == [] then log else RecoverOne(Recover(log, ids[..|ids| - 1]), ids[|ids| - 1])
  }

  function BootLog(log: Log): Log {
    Recover(log, SeenIds(log))
  }

  predicate Wanted(log: Log, line: Line) {
    line.Row? && line.id != "" && line.pending && line.id !in LoadSeen(log)
  }

  /** A new pending id: claim, spawn, record, complete. */
  function PollOne(resolver: string -> Outcome, log: Log, line: Line): Log {
    if Wanted(log, line) then
      log + [Seen(line.id, Claim)] + [Spawn(line.id)] + [Record(line.id, resolver(line.id) != Clean)]
          + [Seen(line.id, Completed)]
    else log
  }

  function PollLog(resolver: string -> Outcome, log: Log, lines: seq<Line>): Log {
    if lines == [] then log else PollOne(resolver, PollLog(resolver, log, lines[..|lines| - 1]), lines[|lines| - 1])
  }

  function SeedOne(log: Log, line: Line): Log {
    if line.Row? && line.id != "" && line.id !in LoadSeen(log) then log + [Seen(line.id, Seeded)] else log
  }

  function SeedLog(log: Log, lines: seq<Line>): Log {
    if lines == [] then log else SeedOne(SeedLog(log, lines[..|lines| - 1]), lines[|lines| - 1])
  }

  datatype Step = Poll(lines: seq<Line>) | Seed(lines: seq<Line>)

  function StepLog(resolver: string -> Outcome, log: Log, step: Step): Log {
    match step
    case Poll(lines) => PollLog(resolver, log, lines)
    case Seed(lines) => SeedLog(log, lines)
  }

  /** A life that is not cut short: boot, then its steps. */
  function LifeLog(resolver: string -> Outcome, log: Log, steps: seq<Step>): Log {
    if steps == [] then BootLog(log)
    else StepLog(resolver, LifeLog(resolver, log, steps[..|steps| - 1]), steps[|steps| - 1])
  }

  /** A life killed after its first `cut` appends, wherever that is: between any two appends of boot, of a claim, of
      a resolve, of recovery itself. A `cut` past the end is a life that ran out. */
  datatype Life = Life(resolver: string -> Outcome, steps: seq<Step>, cut: nat)

  function CutLog(log: Log, life: Life): Log {
    var whole := LifeLog(life.resolver, log, life.steps);
    if |log| + life.cut <= |whole| then whole[..|log| + life.cut] else whole
  }

  function RunLog(lives: seq<Life>): Log {
    if lives == [] then [] else CutLog(RunLog(lives[..|lives| - 1]), lives[|lives| - 1])
  }

  // ---------------------------------------------------------------- the history of one id

  datatype Phase = Unknown | Baseline | Claimed | Spawned | Recorded | Done | Broken

  function Next(p: Phase, e: Event): Phase {
    match (p, e)
    case (Unknown, Seen(_, Seeded)) => Baseline
    case (Unknown, Seen(_, Claim)) => Claimed
    case (Claimed, Spawn(_)) => Spawned
    case (Claimed, Record(_, _)) => Recorded
    case (Spawned, Record(_, _)) => Recorded
    case (Recorded, Record(_, _)) => Recorded
    case (Recorded, Seen(_, Completed)) => Done
    case _ => Broken
  }

  /** Where an id stands: seeded; or claimed, perhaps spawned, recorded at least once, then completed. */
  function PhaseOf(log: Log, id: string): Phase {
    if log == [] then Unknown else
      var p := PhaseOf(log[..|log| - 1], id);
      var last := log[|log| - 1];
      if last.id == id then Next(p, last) else p
  }

  ghost predicate Orderly(log: Log) {
    forall id :: PhaseOf(log, id) != Broken
  }

  lemma {:induction false} PhaseSnoc(log: Log, e: Event, id: string)
    ensures PhaseOf(log + [e], id) == if e.id == id then Next(PhaseOf(log, id), e) else PhaseOf(log, id)
  {
    assert (log + [e])[..|log + [e]| - 1] == log;
  }

  predicate Dangling(p: Phase) {
    p == Claimed || p == Spawned || p == Recorded
  }

  /** What a reload knows of an id is its phase, up to how far an unfinished resolve got. */
  lemma {:induction false} LoadIsPhase(log: Log, id: string)
    requires PhaseOf(log, id) != Broken
    ensures id !in LoadSeen(log) <==> PhaseOf(log, id) == Unknown
    ensures id in LoadSeen(log) && LoadSeen(log)[id] == Claim <==> Dangling(PhaseOf(log, id))
    ensures id in LoadSeen(log) && LoadSeen(log)[id] == Seeded <==> PhaseOf(log, id) == Baseline
    ensures id in LoadSeen(log) && LoadSeen(log)[id] == Completed <==> PhaseOf(log, id) == Done
  {
    if log != [] {
      LoadIsPhase(log[..|log| - 1], id);
    }
  }

  // ---------------------------------------------------------------- every append keeps order

  lemma {:induction false} RecoverOnePhase(log: Log, id: string, x: string)
    requires PhaseOf(log, id) != Broken
    ensures PhaseOf(RecoverOne(log, id), x) == if x == id && Dangling(PhaseOf(log, id)) then Done else PhaseOf(log, x)
  {
    LoadIsPhase(log, id);
    PhaseSnoc(log, Record(id, true), x);
    PhaseSnoc(log + [Record(id, true)], Seen(id, Completed), x);
  }

  lemma {:induction false} RecoverPhase(log: Log, ids: seq<string>, x: string)
    requires Orderly(log)
    ensures PhaseOf(Recover(log, ids), x) == if x in ids && Dangling(PhaseOf(log, x)) then Done else PhaseOf(log, x)
  {
    if ids != [] {
      var front, last := ids[..|ids| - 1], ids[|ids| - 1];
      LastSplit(ids);
      RecoverPhase(log, front, x);
      RecoverPhase(log, front, last);
      RecoverOnePhase(Recover(log, front), last, x);
    }
  }

  lemma {:induction false} PollOnePhase(resolver: string -> Outcome, log: Log, line: Line, x: string)
    requires Orderly(log)
    ensures PhaseOf(PollOne(resolver, log, line), x)
         == if Wanted(log, line) && x == line.id then Done else PhaseOf(log, x)
  {
    if Wanted(log, line) {
      var id := line.id;
      LoadIsPhase(log, id);
      var l1 := log + [Seen(id, Claim)];
      var l2 := l1 + [Spawn(id)];
      var l3 := l2 + [Record(id, resolver(id) != Clean)];
      PhaseSnoc(log, Seen(id, Claim), x);
      PhaseSnoc(l1, Spawn(id), x);
      PhaseSnoc(l2, Record(id, resolver(id) != Clean), x);
      PhaseSnoc(l3, Seen(id, Completed), x);
    }
  }

  /** A poll finishes what it starts and touches nothing else. */
  lemma {:induction false} PollPhase(resolver: string -> Outcome, log: Log, lines: seq<Line>, x: string)
    requires Orderly(log)
    ensures PhaseOf(PollLog(resolver, log, lines), x)
         == if PhaseOf(log, x) == Unknown && Row(x, true) in lines && x != "" then Done else PhaseOf(log, x)
  {
    if lines != [] {
      var front, last := lines[..|lines| - 1], lines[|lines| - 1];
      var before := PollLog(resolver, log, front);
      LastSplit(lines);
      PollPhase(resolver, log, front, x);
      PollOrderly(resolver, log, front);
      PollOnePhase(resolver, before, last, x);
      LoadIsPhase(before, x);
    }
  }

  lemma {:induction false} PollOrderly(resolver: string -> Outcome, log: Log, lines: seq<Line>)
    requires Orderly(log)
    ensures Orderly(PollLog(resolver, log, lines))
  {
    if lines != [] {
      PollOrderly(resolver, log, lines[..|lines| - 1]);
      forall x ensures PhaseOf(PollLog(resolver, log, lines), x) != Broken {
        PollOnePhase(resolver, PollLog(resolver, log, lines[..|lines| - 1]), lines[|lines| - 1], x);
      }
    }
  }

  lemma {:induction false} SeedOnePhase(log: Log, line: Line, x: string)
    requires PhaseOf(log, x) != Broken
    ensures PhaseOf(SeedOne(log, line), x)
         == if line.Row? && x == line.id && x != "" && PhaseOf(log, x) == Unknown then Baseline else PhaseOf(log, x)
  {
    if line.Row? && line.id != "" && line.id !in LoadSeen(log) {
      PhaseSnoc(log, Seen(line.id, Seeded), x);
    }
    LoadIsPhase(log, x);
  }

  lemma {:induction false} OnLine(lines: seq<Line>, last: Line, x: string)
    ensures Row(x, true) in lines + [last] || Row(x, false) in lines + [last]
       <==> Row(x, true) in lines || Row(x, false) in lines || (last.Row? && last.id == x)
  {
    assert last.Row? ==> last == Row(last.id, last.pending);
  }

  lemma {:induction false} SeedPhase(log: Log, lines: seq<Line>, x: string)
    requires Orderly(log)
    ensures PhaseOf(SeedLog(log, lines), x)
         == if PhaseOf(log, x) == Unknown && x != "" && (Row(x, true) in lines || Row(x, false) in lines)
             then Baseline else PhaseOf(log, x)
  {
    if lines != [] {
      var front, last := lines[..|lines| - 1], lines[|lines| - 1];
      LastSplit(lines);
      SeedPhase(log, front, x);
      OnLine(front, last, x);
      SeedOnePhase(SeedLog(log, front), last, x);
    }
  }

  // ---------------------------------------------------------------- crashes

  /** A prefix of an orderly record is orderly: the daemon may die between any two appends. */
  lemma {:induction false} PrefixOrderly(log: Log, n: nat)
    requires Orderly(log) && n <= |log|
    ensures Orderly(log[..n])
  {
    forall x ensures PhaseOf(log[..n], x) != Broken {
      assert log[..|log|] == log;
      if PhaseOf(log[..n], x) == Broken {
        BrokenStays(log, n, |log|, x);
      }
    }
  }

  lemma {:induction false} BrokenStays(log: Log, n: nat, m: nat, x: string)
    requires n <= m <= |log| && PhaseOf(log[..n], x) == Broken
    ensures PhaseOf(log[..m], x) == Broken
  {
    if n < m {
      BrokenStays(log, n, m - 1, x);
      assert log[..m][..m - 1] == log[..m - 1];
    }
  }

  lemma {:induction false} BootOrderly(log: Log)
    requires Orderly(log)
    ensures Orderly(BootLog(log)) && forall x :: !Dangling(PhaseOf(BootLog(log), x))
  {
    forall x ensures PhaseOf(BootLog(log), x) != Broken && !Dangling(PhaseOf(BootLog(log), x)) {
      RecoverPhase(log, SeenIds(log), x);
      SeenIdsKeys(log);
      LoadIsPhase(log, x);
    }
  }

  lemma {:induction false} StepOrderly(resolver: string -> Outcome, log: Log, step: Step)
    requires Orderly(log) && forall x :: !Dangling(PhaseOf(log, x))
    ensures Orderly(StepLog(resolver, log, step)) && forall x :: !Dangling(PhaseOf(StepLog(resolver, log, step), x))
  {
    forall x
      ensures PhaseOf(StepLog(resolver, log, step), x) != Broken
      ensures !Dangling(PhaseOf(StepLog(resolver, log, step), x))
    {
      match step
      case Poll(lines) => PollPhase(resolver, log, lines, x);
      case Seed(lines) => SeedPhase(log, lines, x);
    }
  }

  /** Once it has booted, a daemon that is not in the middle of a poll has no unfinished claim. */
  lemma {:induction false} LifeOrderly(resolver: string -> Outcome, log: Log, steps: seq<Step>)
    requires Orderly(log)
    ensures Orderly(LifeLog(resolver, log, steps)) && forall x :: !Dangling(PhaseOf(LifeLog(resolver, log, steps), x))
  {
    if steps == [] {
      BootOrderly(log);
    } else {
      LifeOrderly(resolver, log, steps[..|steps| - 1]);
      StepOrderly(resolver, LifeLog(resolver, log, steps[..|steps| - 1]), steps[|steps| - 1]);
    }
  }

  lemma {:induction false} RunOrderly(lives: seq<Life>)
    ensures Orderly(RunLog(lives))
  {
    if lives != [] {
      var log, life := RunLog(lives[..|lives| - 1]), lives[|lives| - 1];
      RunOrderly(lives[..|lives| - 1]);
      LifeOrderly(life.resolver, log, life.steps);
      if |log| + life.cut <= |LifeLog(life.resolver, log, life.steps)| {
        PrefixOrderly(LifeLog(life.resolver, log, life.steps), |log| + life.cut);
      }
    }
  }

  /** The record is append-only, so what a crash leaves is a prefix that still holds everything before the life. */
  lemma {:induction false} LifeExtends(resolver: string -> Outcome, log: Log, steps: seq<Step>)
    ensures log <= LifeLog(resolver, log, steps)
    ensures forall cut :: log <= CutLog(log, Life(resolver, steps, cut))
  {
    if steps == [] {
      RecoverExtends(log, SeenIds(log));
    } else {
      var before := LifeLog(resolver, log, steps[..|steps| - 1]);
      LifeExtends(resolver, log, steps[..|steps| - 1]);
      match steps[|steps| - 1]
      case Poll(lines) => PollExtends(resolver, before, lines);
      case Seed(lines) => SeedExtends(before, lines);
    }
  }

  lemma {:induction false} RecoverExtends(log: Log, ids: seq<string>)
    ensures log <= Recover(log, ids)
  {
    if ids != [] {
      RecoverExtends(log, ids[..|ids| - 1]);
    }
  }

  lemma {:induction false} PollExtends(resolver: string -> Outcome, log: Log, lines: seq<Line>)
    ensures log <= PollLog(resolver, log, lines)
  {
    if lines != [] {
      PollExtends(resolver, log, lines[..|lines| - 1]);
    }
  }

  lemma {:induction false} SeedExtends(log: Log, lines: seq<Line>)
    ensures log <= SeedLog(log, lines)
  {
    if lines != [] {
      SeedExtends(log, lines[..|lines| - 1]);
    }
  }

  // ---------------------------------------------------------------- at most once

  function Spawns(log: Log, id: string): nat {
    if log == [] then 0 else Spawns(log[..|log| - 1], id) + if log[|log| - 1] == Spawn(id) then 1 else 0
  }

  lemma {:induction false} SpawnsByPhase(log: Log, id: string)
    requires PhaseOf(log, id) != Broken
    ensures Spawns(log, id) <= match PhaseOf(log, id)
      case Unknown => 0
      case Baseline => 0
      case Claimed => 0
      case _ => 1
  {
    if log != [] {
      SpawnsByPhase(log[..|log| - 1], id);
    }
  }

  /** What an orderly record shows an id went through it did go through, and in that order. */
  lemma {:induction false} PhaseShows(log: Log, id: string)
    requires PhaseOf(log, id) != Broken
    ensures Seen(id, Seeded) in log <==> PhaseOf(log, id) == Baseline
    ensures Seen(id, Claim) in log <==> Dangling(PhaseOf(log, id)) || PhaseOf(log, id) == Done
    ensures PhaseOf(log, id) == Recorded || PhaseOf(log, id) == Done ==> exists failed :: Record(id, failed) in log
  {
    if log != [] {
      var front, last := log[..|log| - 1], log[|log| - 1];
      LastSplit(log);
      PhaseShows(front, id);
      if exists failed :: Record(id, failed) in front {
        var failed :| Record(id, failed) in front;
        assert Record(id, failed) in log;
      }
      if last == Record(id, true) || last == Record(id, false) {
        assert Record(id, last.failed) in log;
      }
    }
  }

  /** AT MOST ONCE, over every run with crashes anywhere: no task id is resolved twice, a seeded id never, and a
      resolve only starts once its claim is on disk. */
  lemma {:induction false} AtMostOnce(lives: seq<Life>, id: string)
    ensures Spawns(RunLog(lives), id) <= 1
    ensures Seen(id, Seeded) in RunLog(lives) ==> Spawns(RunLog(lives), id) == 0
    ensures forall i | 0 <= i < |RunLog(lives)| ::
        RunLog(lives)[i] == Spawn(id) ==> Seen(id, Claim) in RunLog(lives)[..i]
  {
    var log := RunLog(lives);
    RunOrderly(lives);
    SpawnsByPhase(log, id);
    PhaseShows(log, id);
    forall i | 0 <= i < |log| && log[i] == Spawn(id) ensures Seen(id, Claim) in log[..i] {
      PrefixOrderly(log, i + 1);
      PrefixOrderly(log, i);
      assert log[..i + 1] == log[..i] + [Spawn(id)];
      PhaseSnoc(log[..i], Spawn(id), id);
      PhaseShows(log[..i], id);
    }
  }

  // ---------------------------------------------------------------- no silent loss

  /** NO SILENT LOSS: after any run with crashes anywhere, a daemon that has booted and is between polls has, for
      every id ever claimed, a completing row as its last word and at least one record of what happened. */
  lemma {:induction false} NoSilentLoss(lives: seq<Life>, resolver: string -> Outcome, steps: seq<Step>, id: string)
    ensures var log := LifeLog(resolver, RunLog(lives), steps);
      Seen(id, Claim) in log ==>
        id in LoadSeen(log) && LoadSeen(log)[id] == Completed && exists failed :: Record(id, failed) in log
  {
    var log := LifeLog(resolver, RunLog(lives), steps);
    RunOrderly(lives);
    LifeOrderly(resolver, RunLog(lives), steps);
    PhaseShows(log, id);
    LoadIsPhase(log, id);
  }

  // ---------------------------------------------------------------- what recovery records

  function Failures(log: Log): nat {
    if log == [] then 0 else
      Failures(log[..|log| - 1]) + if log[|log| - 1].Record? && log[|log| - 1].failed then 1 else 0
  }

  lemma {:induction false} FailuresSnoc(log: Log, e: Event)
    ensures Failures(log + [e]) == Failures(log) + if e.Record? && e.failed then 1 else 0
  {
    assert (log + [e])[..|log + [e]| - 1] == log;
  }

  /** The ids a crash left unfinished, in the order in which they were first marked. */
  ghost function DanglingIds(log: Log, ids: seq<string>): seq<string> {
    Filter((id: string) => Dangling(PhaseOf(log, id)), ids)
  }

  /** Behind `log` each of the ids has its error record, directly followed by its completing row, and nothing else. */
  ghost predicate Repaired(after: Log, log: Log, ids: seq<string>) {
    && |after| == |log| + 2 * |ids| && after[..|log|] == log
    && forall k | 0 <= k < |ids| ::
         after[|log| + 2 * k] == Record(ids[k], true) && after[|log| + 2 * k + 1] == Seen(ids[k], Completed)
  }

  lemma {:induction false} RepairedSnoc(after: Log, log: Log, ids: seq<string>, id: string)
    requires Repaired(after, log, ids)
    ensures Repaired(after + [Record(id, true)] + [Seen(id, Completed)], log, ids + [id])
  {
    var more := after + [Record(id, true)] + [Seen(id, Completed)];
    assert more[..|log|] == after[..|log|];
    forall k | 0 <= k < |ids + [id]|
      ensures more[|log| + 2 * k] == Record((ids + [id])[k], true)
      ensures more[|log| + 2 * k + 1] == Seen((ids + [id])[k], Completed)
    {
      if k < |ids| {
        assert more[|log| + 2 * k] == after[|log| + 2 * k] && more[|log| + 2 * k + 1] == after[|log| + 2 * k + 1];
      }
    }
  }

  lemma {:induction false} RecoverRepairs(log: Log, ids: seq<string>)
    requires Orderly(log) && NoDuplicates(ids)
    ensures Repaired(Recover(log, ids), log, DanglingIds(log, ids))
    ensures Failures(Recover(log, ids)) == Failures(log) + |DanglingIds(log, ids)|
  {
    if ids != [] {
      var front, last := ids[..|ids| - 1], ids[|ids| - 1];
      var before := Recover(log, front);
      RecoverRepairs(log, front);
      RecoverPhase(log, front, last);
      LoadIsPhase(before, last);
      LastSplit(ids);
      FilterSnoc((id: string) => Dangling(PhaseOf(log, id)), front, last);
      RepairedSnoc(before, log, DanglingIds(log, front), last);
      FailuresSnoc(before, Record(last, true));
      FailuresSnoc(before + [Record(last, true)], Seen(last, Completed));
    }
  }

  lemma {:induction false} SeenIdsOnce(log: Log)
    ensures NoDuplicates(SeenIds(log))
  {
    if log != [] {
      SeenIdsOnce(log[..|log| - 1]);
    }
  }

  /** WHAT A BOOT REPAIRS, exactly: behind an orderly record it appends, for every id a crash left unfinished and for no
      other, one error record directly followed by the completing row, so the failed records grow by the number of those
      ids. */
  lemma {:induction false} BootRepairs(log: Log)
    requires Orderly(log)
    ensures var ids := DanglingIds(log, SeenIds(log));
      && NoDuplicates(ids) && (forall id :: id in ids <==> Dangling(PhaseOf(log, id)))
      && Repaired(BootLog(log), log, ids) && Failures(BootLog(log)) == Failures(log) + |ids|
  {
    var keep := (id: string) => Dangling(PhaseOf(log, id));
    SeenIdsOnce(log);
    FilterNoDuplicates(keep, SeenIds(log));
    RecoverRepairs(log, SeenIds(log));
    SeenIdsKeys(log);
    forall id ensures id in DanglingIds(log, SeenIds(log)) <==> Dangling(PhaseOf(log, id)) {
      LoadIsPhase(log, id);
    }
  }

  // ---------------------------------------------------------------- a clean record is a clean resolve

  /** Every clean record of the id stands directly behind the start of its resolve, and `ok`. */
  ghost predicate CleanBacked(log: Log, id: string, ok: bool) {
    forall i | 0 <= i < |log| && log[i] == Record(id, false) :: i > 0 && log[i - 1] == Spawn(id) && ok
  }

  lemma {:induction false} BackedSnoc(log: Log, e: Event, id: string, ok: bool)
    requires CleanBacked(log, id, ok)
    requires e == Record(id, false) ==> log != [] && log[|log| - 1] == Spawn(id) && ok
    ensures CleanBacked(log + [e], id, ok)
  {
    forall i | 0 <= i < |log + [e]| && (log + [e])[i] == Record(id, false)
      ensures i > 0 && (log + [e])[i - 1] == Spawn(id) && ok
    {
      assert i < |log| ==> log[i] == Record(id, false);
    }
  }

  lemma {:induction false} RecoverBacked(log: Log, ids: seq<string>, id: string, ok: bool)
    requires CleanBacked(log, id, ok)
    ensures CleanBacked(Recover(log, ids), id, ok)
  {
    if ids != [] {
      var before, last := Recover(log, ids[..|ids| - 1]), ids[|ids| - 1];
      RecoverBacked(log, ids[..|ids| - 1], id, ok);
      BackedSnoc(before, Record(last, true), id, ok);
      BackedSnoc(before + [Record(last, true)], Seen(last, Completed), id, ok);
    }
  }

  lemma {:induction false} PollOneBacked(resolver: string -> Outcome, log: Log, line: Line, id: string, ok: bool)
    requires CleanBacked(log, id, ok) && (resolver(id) == Clean ==> ok)
    ensures CleanBacked(PollOne(resolver, log, line), id, ok)
  {
    if Wanted(log, line) {
      var l1 := log + [Seen(line.id, Claim)];
      var l2 := l1 + [Spawn(line.id)];
      var l3 := l2 + [Record(line.id, resolver(line.id) != Clean)];
      BackedSnoc(log, Seen(line.id, Claim), id, ok);
      BackedSnoc(l1, Spawn(line.id), id, ok);
      BackedSnoc(l2, Record(line.id, resolver(line.id) != Clean), id, ok);
      BackedSnoc(l3, Seen(line.id, Completed), id, ok);
    }
  }

  lemma {:induction false} StepBacked(resolver: string -> Outcome, log: Log, step: Step, id: string, ok: bool)
    requires CleanBacked(log, id, ok) && (resolver(id) == Clean ==> ok)
    ensures CleanBacked(StepLog(resolver, log, step), id, ok)
    decreases |step.lines|
  {
    if step.lines != [] {
      var front, last := step.lines[..|step.lines| - 1], step.lines[|step.lines| - 1];
      match step
      case Poll(lines) =>
        StepBacked(resolver, log, Poll(front), id, ok);
        PollOneBacked(resolver, PollLog(resolver, log, front), last, id, ok);
      case Seed(lines) =>
        StepBacked(resolver, log, Seed(front), id, ok);
        if last.Row? {
          BackedSnoc(SeedLog(log, front), Seen(last.id, Seeded), id, ok);
        }
    }
  }

  lemma {:induction false} LifeBacked(resolver: string -> Outcome, log: Log, steps: seq<Step>, id: string, ok: bool)
    requires CleanBacked(log, id, ok) && (resolver(id) == Clean ==> ok)
    ensures CleanBacked(LifeLog(resolver, log, steps), id, ok)
  {
    if steps == [] {
      RecoverBacked(log, SeenIds(log), id, ok);
    } else {
      var front, last := steps[..|steps| - 1], steps[|steps| - 1];
      LifeBacked(resolver, log, front, id, ok);
      StepBacked(resolver, LifeLog(resolver, log, front), last, id, ok);
    }
  }

  ghost predicate SomeClean(lives: seq<Life>, id: string) {
    exists life :: life in lives && life.resolver(id) == Clean
  }

  lemma {:induction false} RunBacked(lives: seq<Life>, id: string, ok: bool)
    requires SomeClean(lives, id) ==> ok
    ensures CleanBacked(RunLog(lives), id, ok)
  {
    if lives != [] {
      var front, life := lives[..|lives| - 1], lives[|lives| - 1];
      LastSplit(lives);
      assert life in lives && forall l | l in front :: l in lives;
      RunBacked(front, id, ok);
      LifeBacked(life.resolver, RunLog(front), life.steps, id, ok);
    }
  }

  /** A CLEAN RECORD IS A CLEAN RESOLVE: over any run with crashes anywhere, an id is recorded without an error only
      directly behind the start of its resolve, and only if the resolver of some life gave a clean outcome for it. */
  lemma {:induction false} CleanMeansResolved(lives: seq<Life>, id: string, i: nat)
    requires i < |RunLog(lives)| && RunLog(lives)[i] == Record(id, false)
    ensures i > 0 && RunLog(lives)[i - 1] == Spawn(id)
    ensures exists life :: life in lives && life.resolver(id) == Clean
  {
    RunBacked(lives, id, SomeClean(lives, id));
  }

  // ---------------------------------------------------------------- the naive reader

  lemma {:induction false} PollAppend(resolver: string -> Outcome, log: Log, a: seq<Line>, b: seq<Line>)
    ensures PollLog(resolver, log, a + b) == PollLog(resolver, PollLog(resolver, log, a), b)
  {
    if b == [] {
      assert a + b == a;
    } else {
      assert (a + b)[..|a + b| - 1] == a + b[..|b| - 1];
      PollAppend(resolver, log, a, b[..|b| - 1]);
    }
  }

  /** Lines whose pending ids are all known cause nothing. */
  lemma {:induction false} NothingWanted(resolver: string -> Outcome, log: Log, lines: seq<Line>)
    requires forall line | line in lines :: !Wanted(log, line)
    ensures PollLog(resolver, log, lines) == log
  {
    if lines != [] {
      LastSplit(lines);
      NothingWanted(resolver, log, lines[..|lines| - 1]);
    }
  }

  lemma {:induction false} PollLoads(resolver: string -> Outcome, log: Log, lines: seq<Line>)
    ensures forall id ::
        id in LoadSeen(PollLog(resolver, log, lines)) <==> id in LoadSeen(log) || (id != "" && Row(id, true) in lines)
  {
    if lines != [] {
      var front, last := lines[..|lines| - 1], lines[|lines| - 1];
      LastSplit(lines);
      PollLoads(resolver, log, front);
      PollOneLoads(resolver, PollLog(resolver, log, front), last);
    }
  }

  lemma {:induction false} PollOneLoads(resolver: string -> Outcome, log: Log, line: Line)
    ensures forall id ::
        id in LoadSeen(PollOne(resolver, log, line)) <==> id in LoadSeen(log) || (Wanted(log, line) && id == line.id)
  {
    if Wanted(log, line) {
      var id := line.id;
      var l1 := log + [Seen(id, Claim)];
      var l2 := l1 + [Spawn(id)];
      var l3 := l2 + [Record(id, resolver(id) != Clean)];
      LoadSnoc(log, Seen(id, Claim));
      LoadSnoc(l1, Spawn(id));
      LoadSnoc(l2, Record(id, resolver(id) != Clean));
      LoadSnoc(l3, Seen(id, Completed));
    }
  }

  function Flatten(chunks: seq<seq<Line>>): seq<Line> {
    if chunks == [] then [] else Flatten(chunks[..|chunks| - 1]) + chunks[|chunks| - 1]
  }

  /** The tailing daemon: each poll sees the lines that are new. */
  function Tailed(resolver: string -> Outcome, log: Log, chunks: seq<seq<Line>>): Log {
    if chunks == [] then log
    else PollLog(resolver, Tailed(resolver, log, chunks[..|chunks| - 1]), chunks[|chunks| - 1])
  }

  /** The naive daemon: each poll reads the whole board again. */
  function Rescanned(resolver: string -> Outcome, log: Log, chunks: seq<seq<Line>>): Log {
    if chunks == [] then log
    else PollLog(resolver, Rescanned(resolver, log, chunks[..|chunks| - 1]), Flatten(chunks))
  }

  /** INCREMENTAL EQUALS NAIVE: tailing the board does exactly what rescanning it from the start at every poll
      would, which is what one pass over everything read would. */
  lemma {:induction false} TailIsRescan(resolver: string -> Outcome, log: Log, chunks: seq<seq<Line>>)
    ensures Tailed(resolver, log, chunks) == PollLog(resolver, log, Flatten(chunks))
    ensures Rescanned(resolver, log, chunks) == PollLog(resolver, log, Flatten(chunks))
  {
    if chunks != [] {
      var front, last := chunks[..|chunks| - 1], chunks[|chunks| - 1];
      var known := PollLog(resolver, log, Flatten(front));
      TailIsRescan(resolver, log, front);
      PollAppend(resolver, log, Flatten(front), last);
      PollAppend(resolver, known, Flatten(front), last);
      PollLoads(resolver, log, Flatten(front));
      NothingWanted(resolver, known, Flatten(front));
    }
  }

  // ---------------------------------------------------------------- which ids, in which order

  function SpawnIds(log: Log): seq<string> {
    if log == [] then [] else
      var last := log[|log| - 1];
      if last.Spawn? then SpawnIds(log[..|log| - 1]) + [last.id] else SpawnIds(log[..|log| - 1])
  }

  function PendingIds(lines: seq<Line>): (ids: seq<string>)
    ensures forall id :: id in ids <==> id != "" && Row(id, true) in lines
  {
    if lines == [] then [] else
      var front, last := lines[..|lines| - 1], lines[|lines| - 1];
      assert lines == front + [last];
      if last.Row? && last.id != "" && last.pending then PendingIds(front) + [last.id] else PendingIds(front)
  }

  predicate Fresh(log: Log, id: string) {
    id !in LoadSeen(log)
  }

  /** The submissions a poll acts on: pending ids the record does not know, once each, in order of appearance. */
  function NewIds(log: Log, lines: seq<Line>): seq<string> {
    Distinct(Filter((id: string) => Fresh(log, id), PendingIds(lines)))
  }

  lemma {:induction false} SpawnIdsSnoc(log: Log, e: Event)
    ensures SpawnIds(log + [e]) == if e.Spawn? then SpawnIds(log) + [e.id] else SpawnIds(log)
  {
    assert (log + [e])[..|log + [e]| - 1] == log;
  }

  lemma {:induction false} PollOneSpawns(resolver: string -> Outcome, log: Log, line: Line)
    ensures SpawnIds(PollOne(resolver, log, line))
        == if Wanted(log, line) then SpawnIds(log) + [line.id] else SpawnIds(log)
  {
    if Wanted(log, line) {
      var id := line.id;
      var l1 := log + [Seen(id, Claim)];
      var l2 := l1 + [Spawn(id)];
      var l3 := l2 + [Record(id, resolver(id) != Clean)];
      SpawnIdsSnoc(log, Seen(id, Claim));
      SpawnIdsSnoc(l1, Spawn(id));
      SpawnIdsSnoc(l2, Record(id, resolver(id) != Clean));
      SpawnIdsSnoc(l3, Seen(id, Completed));
    }
  }

  /** A poll resolves exactly the new submissions, in order. */
  lemma {:induction false} PollSpawns(resolver: string -> Outcome, log: Log, lines: seq<Line>)
    ensures SpawnIds(PollLog(resolver, log, lines)) == SpawnIds(log) + NewIds(log, lines)
  {
    if lines == [] {
      assert SpawnIds(log) + [] == SpawnIds(log);
    } else {
      var front, last := lines[..|lines| - 1], lines[|lines| - 1];
      var keep := (id: string) => Fresh(log, id);
      PollSpawns(resolver, log, front);
      PollOneSpawns(resolver, PollLog(resolver, log, front), last);
      PollLoads(resolver, log, front);
      if last.Row? && last.id != "" && last.pending {
        FilterSnoc(keep, PendingIds(front), last.id);
        DistinctSnoc(Filter(keep, PendingIds(front)), last.id);
        AppendAssociates(SpawnIds(log), NewIds(log, front), [last.id]);
      }
    }
  }

  /** Behind `log` each of the ids has its claim, its start, one record that is failed unless the resolve was clean, and
      its completing row, and nothing else. */
  ghost predicate Resolved(resolver: string -> Outcome, after: Log, log: Log, ids: seq<string>) {
    && |after| == |log| + 4 * |ids| && after[..|log|] == log
    && forall k | 0 <= k < |ids| ::
         && after[|log| + 4 * k] == Seen(ids[k], Claim) && after[|log| + 4 * k + 1] == Spawn(ids[k])
         && after[|log| + 4 * k + 2] == Record(ids[k], resolver(ids[k]) != Clean)
         && after[|log| + 4 * k + 3] == Seen(ids[k], Completed)
  }

  lemma {:induction false} ResolvedSnoc(resolver: string -> Outcome, after: Log, log: Log, ids: seq<string>, id: string)
    requires Resolved(resolver, after, log, ids)
    ensures Resolved(resolver, after + [Seen(id, Claim)] + [Spawn(id)] + [Record(id, resolver(id) != Clean)]
                         + [Seen(id, Completed)], log, ids + [id])
  {
    var more := after + [Seen(id, Claim)] + [Spawn(id)] + [Record(id, resolver(id) != Clean)] + [Seen(id, Completed)];
    assert more[..|log|] == after[..|log|];
    assert forall n | 0 <= n < |after| :: more[n] == after[n];
  }

  /** WHAT A POLL WRITES, exactly: for every new submission, in order, its claim, its start, its record and its
      completing row. */
  lemma {:induction false} PollWrites(resolver: string -> Outcome, log: Log, lines: seq<Line>)
    ensures Resolved(resolver, PollLog(resolver, log, lines), log, NewIds(log, lines))
  {
    if lines != [] {
      var front, last := lines[..|lines| - 1], lines[|lines| - 1];
      var before, keep := PollLog(resolver, log, front), (id: string) => Fresh(log, id);
      PollWrites(resolver, log, front);
      PollLoads(resolver, log, front);
      if last.Row? && last.id != "" && last.pending {
        FilterSnoc(keep, PendingIds(front), last.id);
        DistinctSnoc(Filter(keep, PendingIds(front)), last.id);
      }
      if Wanted(before, last) {
        ResolvedSnoc(resolver, before, log, NewIds(log, front), last.id);
      }
    }
  }

  // ---------------------------------------------------------------- a seed cut short

  lemma {:induction false} SeedOnly(lines: seq<Line>)
    ensures forall e | e in SeedLog([], lines) :: e == Seen(e.id, Seeded)
  {
    if lines != [] {
      SeedOnly(lines[..|lines| - 1]);
    }
  }

  lemma {:induction false} NothingDangling(log: Log, ids: seq<string>)
    requires forall id | id in LoadSeen(log) :: LoadSeen(log)[id] != Claim
    ensures Recover(log, ids) == log
  {
    if ids != [] {
      NothingDangling(log, ids[..|ids| - 1]);
    }
  }

  lemma {:induction false} SeededLoads(log: Log)
    requires forall e | e in log :: e == Seen(e.id, Seeded)
    ensures forall id :: id in LoadSeen(log) <==> Seen(id, Seeded) in log
    ensures forall id | id in LoadSeen(log) :: LoadSeen(log)[id] == Seeded
    ensures SpawnIds(log) == []
  {
    if log != [] {
      LastSplit(log);
      SeededLoads(log[..|log| - 1]);
    }
  }

  /** A first boot killed while it marks the backlog leaves a state that is no longer fresh, so the next boot does
      not seed: its first poll resolves exactly the pending backlog ids the seed had not reached. */
  lemma {:induction false} SeedCutExact(resolver: string -> Outcome, lines: seq<Line>, k: nat)
    requires 0 < k <= |SeedLog([], lines)|
    ensures var cut := SeedLog([], lines)[..k];
      && LoadSeen(cut) != map[]
      && forall id :: id in SpawnIds(LifeLog(resolver, cut, [Poll(lines)]))
           <==> id != "" && Row(id, true) in lines && Seen(id, Seeded) !in cut
  {
    var cut := SeedLog([], lines)[..k];
    SeedOnly(lines);
    SeededLoads(cut);
    assert cut[0] in cut;
    assert cut[0].id in LoadSeen(cut);
    NothingDangling(cut, SeenIds(cut));
    assert [Poll(lines)][..0] == [];
    assert LifeLog(resolver, cut, []) == cut;
    PollSpawns(resolver, cut, lines);
    assert SpawnIds(LifeLog(resolver, cut, [Poll(lines)])) == [] + NewIds(cut, lines);
  }
}
