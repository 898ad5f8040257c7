/** The A/B harness: pricing an attempt, the ledger of a run over every task and lane, and the ranking. */
module AbLedger {
  import opened Prelude

  // ---------------------------------------------------------------- pricing

  /** A price per million tokens: not given, given but not a finite number, or a number. */
  datatype Rate = Absent | Invalid | Rate(r: real)

  datatype Price = Price(source: string, basis: string, input: Rate, output: Rate, cacheRead: Rate)

  /** Token meters; a missing or malformed count is none. */
  datatype Tokens = Tokens(input: Option<nat>, output: Option<nat>, cacheRead: Option<nat>)

  datatype Reason = NoPrice | NoSource | NoCachePrice | MissingMeter | BadRate

  datatype Cost = Usd(amount: real) | Unknown(reason: Reason)

  predicate UsableRate(rate: Rate) {
    rate.Rate? && rate.r >= 0.0
  }

  function Metered(count: nat, rate: Rate): real
    requires rate.Rate?
  {
    count as real * rate.r / 1_000_000.0
  }

  /** The lane's price row, when it may be used: a lane with a known anomaly needs a verified basis and its source. */
  function PriceFor(anomalies: set<string>, prices: map<string, Price>, lane: string): Option<Price> {
    if lane !in prices then None
    else if lane in anomalies then
      if prices[lane].basis != "" && prices[lane].source != "" then Some(prices[lane]) else None
    else if prices[lane].input != Absent && prices[lane].output != Absent then Some(prices[lane]) else None
  }

  function AttemptCost(tokens: Tokens, price: Option<Price>): Cost {
    if price.None? then Unknown(NoPrice)
    else
      var p := price.value;
      if p.source == "" then Unknown(NoSource)
      else if tokens.cacheRead.Some? && p.cacheRead == Absent && tokens.cacheRead.value > 0 then Unknown(NoCachePrice)
      else if tokens.input.None? || tokens.output.None? || tokens.cacheRead.None? then Unknown(MissingMeter)
      else if !UsableRate(p.input) || !UsableRate(p.output) || (p.cacheRead != Absent && !UsableRate(p.cacheRead))
          then Unknown(BadRate)
      else Usd(Metered(tokens.input.value, p.input) + Metered(tokens.output.value, p.output)
               + if p.cacheRead == Absent then 0.0 else Metered(tokens.cacheRead.value, p.cacheRead))
  }

  /** A cost is named exactly when the price is sourced, every meter was read and every rate that matters is a
      usable number. It is never negative, and zero only if each metered kind was free or unused. */
  lemma {:induction false} CostKnown(tokens: Tokens, price: Option<Price>)
    ensures AttemptCost(tokens, price).Usd? <==>
      && price.Some? && price.value.source != ""
      && tokens.input.Some? && tokens.output.Some? && tokens.cacheRead.Some?
      && UsableRate(price.value.input) && UsableRate(price.value.output)
      && (UsableRate(price.value.cacheRead) || (price.value.cacheRead == Absent && tokens.cacheRead.value == 0))
    ensures AttemptCost(tokens, price).Usd? ==>
      && AttemptCost(tokens, price).amount >= 0.0
      && (AttemptCost(tokens, price).amount == 0.0 ==> tokens.input.value == 0 || price.value.input.r == 0.0)
      && (AttemptCost(tokens, price).amount == 0.0 ==> tokens.output.value == 0 || price.value.output.r == 0.0)
      && (AttemptCost(tokens, price).amount == 0.0 ==> tokens.cacheRead.value == 0 || price.value.cacheRead.r == 0.0)
  {
    if AttemptCost(tokens, price).Usd? {
      var p := price.value;
      MeteredSign(tokens.input.value, p.input);
      MeteredSign(tokens.output.value, p.output);
      if p.cacheRead != Absent {
        MeteredSign(tokens.cacheRead.value, p.cacheRead);
      }
    }
  }

  lemma {:induction false} MeteredSign(count: nat, rate: Rate)
    requires UsableRate(rate)
    ensures Metered(count, rate) >= 0.0
    ensures Metered(count, rate) == 0.0 ==> count == 0 || rate.r == 0.0
  {
    if count > 0 && rate.r > 0.0 {
      assert count as real * rate.r > 0.0;
    }
  }

  /** Every meter was read. */
  function Meters(input: nat, output: nat, cacheRead: nat): Tokens {
    Tokens(Some(input), Some(output), Some(cacheRead))
  }

  /** A sourced price with all three rates. */
  predicate FullPrice(p: Price) {
    p.source != "" && UsableRate(p.input) && UsableRate(p.output) && UsableRate(p.cacheRead)
  }

  lemma {:induction false} MeteredAdds(m: nat, n: nat, rate: Rate)
    requires rate.Rate?
    ensures Metered(m + n, rate) == Metered(m, rate) + Metered(n, rate)
  {
    assert (m + n) as real == m as real + n as real;
    assert (m as real + n as real) * rate.r == m as real * rate.r + n as real * rate.r;
  }

  /** Metering twice costs the sum of the two costs, in all three kinds. */
  lemma {:induction false} CostAdds(p: Price, i: nat, o: nat, r: nat, i': nat, o': nat, r': nat)
    requires FullPrice(p)
    ensures AttemptCost(Meters(i, o, r), Some(p)).Usd? && AttemptCost(Meters(i', o', r'), Some(p)).Usd?
    ensures AttemptCost(Meters(i + i', o + o', r + r'), Some(p))
         == Usd(AttemptCost(Meters(i, o, r), Some(p)).amount + AttemptCost(Meters(i', o', r'), Some(p)).amount)
  {
    MeteredAdds(i, i', p.input);
    MeteredAdds(o, o', p.output);
    MeteredAdds(r, r', p.cacheRead);
    hide Metered;
  }

  /** A million tokens of one kind cost that kind's rate. */
  lemma {:induction false} MillionCosts(p: Price)
    requires FullPrice(p)
    ensures AttemptCost(Meters(1_000_000, 0, 0), Some(p)) == Usd(p.input.r)
    ensures AttemptCost(Meters(0, 1_000_000, 0), Some(p)) == Usd(p.output.r)
    ensures AttemptCost(Meters(0, 0, 1_000_000), Some(p)) == Usd(p.cacheRead.r)
  {
  }

  /** Without a rate for cache reads nothing but input and output is charged, as if that rate were zero. */
  lemma {:induction false} NoCacheRate(p: Price, i: nat, o: nat)
    requires p.source != "" && UsableRate(p.input) && UsableRate(p.output)
    ensures AttemptCost(Meters(i, o, 0), Some(p.(cacheRead := Absent)))
         == AttemptCost(Meters(i, o, 0), Some(p.(cacheRead := Rate(0.0))))
  {
  }

  /** The reason given for a missing cost is one that holds. */
  lemma {:induction false} ReasonHolds(tokens: Tokens, price: Option<Price>)
    requires AttemptCost(tokens, price).Unknown?
    ensures match AttemptCost(tokens, price).reason
      case NoPrice => price.None?
      case NoSource => price.Some? && price.value.source == ""
      case NoCachePrice =>
        price.Some? && price.value.cacheRead == Absent && tokens.cacheRead.Some? && tokens.cacheRead.value > 0
      case MissingMeter => tokens.input.None? || tokens.output.None? || tokens.cacheRead.None?
      case BadRate =>
        price.Some? && !(UsableRate(price.value.input) && UsableRate(price.value.output)
                         && (price.value.cacheRead == Absent || UsableRate(price.value.cacheRead)))
  {
  }

  // ---------------------------------------------------------------- the run

  datatype Pair = Pair(provider: string, model: string)

  /** What the executor and the verifier gave for one attempt. */
  datatype Outcome = Outcome(served: Option<Pair>, accepted: bool, tokens: Tokens)

  datatype Attempt = Attempt(lane: string, task: nat, served: Option<Pair>, excluded: bool, passed: bool,
      success: Option<bool>, cost: Cost)

  datatype Tally = Tally(attempts: nat, passed: nat, excluded: nat, mismatches: nat, costSum: real, costed: nat,
      missing: seq<Reason>)

  const EMPTY := Tally(0, 0, 0, 0, 0.0, 0, [])

  datatype Bench = Bench(tasks: nat, pairs: seq<Pair>, outcome: (nat, nat) -> Outcome, anomalies: set<string>,
      prices: map<string, Price>)

  function LaneOf(p: Pair): string {
    p.provider + "/" + p.model
  }

  /** A sample served by another lane is no sample: it has no verdict and no cost. */
  function AttemptOf(b: Bench, i: nat, j: nat): Attempt
    requires j < |b.pairs|
  {
    var lane, out := LaneOf(b.pairs[j]), b.outcome(i, j);
    var mismatch := out.served != Some(b.pairs[j]);
    Attempt(lane, i, out.served, mismatch, out.accepted, if mismatch then None else Some(out.accepted),
            if mismatch then Unknown(NoPrice) else AttemptCost(out.tokens, PriceFor(b.anomalies, b.prices, lane)))
  }

  /** A row has a cost exactly when the lane it asked for served it, that lane has a sourced price, with a verified
      basis if it is a known anomaly, every meter was read, and every rate that matters is a usable number. */
  lemma {:induction false} CostedExactly(b: Bench, i: nat, j: nat)
    requires j < |b.pairs|
    ensures var a, t, lane := AttemptOf(b, i, j), b.outcome(i, j).tokens, b.pairs[j].provider + "/" + b.pairs[j].model;
      && a.lane == lane && a.task == i && a.served == b.outcome(i, j).served && a.passed == b.outcome(i, j).accepted
      && (a.excluded <==> b.outcome(i, j).served != Some(b.pairs[j]))
      && a.success == (if a.excluded then None else Some(a.passed))
      && (a.cost.Usd? <==>
            && !a.excluded && lane in b.prices && b.prices[lane].source != ""
            && (lane in b.anomalies ==> b.prices[lane].basis != "")
            && t.input.Some? && t.output.Some? && t.cacheRead.Some?
            && UsableRate(b.prices[lane].input) && UsableRate(b.prices[lane].output)
            && (UsableRate(b.prices[lane].cacheRead)
                || (b.prices[lane].cacheRead == Absent && t.cacheRead.value == 0)))
      && (a.cost.Usd? ==> a.cost == AttemptCost(t, Some(b.prices[lane])))
      && (a.cost == Unknown(NoPrice) <==>
            || a.excluded || lane !in b.prices
            || (lane in b.anomalies && (b.prices[lane].basis == "" || b.prices[lane].source == ""))
            || (lane !in b.anomalies && (b.prices[lane].input == Absent || b.prices[lane].output == Absent)))
  {
    hide Metered;
    if !AttemptOf(b, i, j).excluded {
      CostKnown(b.outcome(i, j).tokens, PriceFor(b.anomalies, b.prices, LaneOf(b.pairs[j])));
    }
  }

  function TaskRows(b: Bench, i: nat, m: nat): seq<Attempt>
    requires m <= |b.pairs|
  {
    if m == 0 then [] else TaskRows(b, i, m - 1) + [AttemptOf(b, i, m - 1)]
  }

  /** One row for every task on every lane, task by task. */
  function RunRows(b: Bench, n: nat): seq<Attempt> {
    if n == 0 then [] else RunRows(b, n - 1) + TaskRows(b, n - 1, |b.pairs|)
  }

  function Counted(t: Tally, a: Attempt): Tally {
    if a.excluded then t.(attempts := t.attempts + 1, excluded := t.excluded + 1, mismatches := t.mismatches + 1)
    else
      var u := t.(attempts := t.attempts + 1, passed := t.passed + if a.passed then 1 else 0);
      if a.cost.Usd? then u.(costSum := u.costSum + a.cost.amount, costed := u.costed + 1)
      else u.(missing := u.missing + [a.cost.reason])
  }

  /** What a lane's counters are of the rows written so far. */
  function TallyOf(rows: seq<Attempt>, lane: string): Tally {
    if rows == [] then EMPTY else
      var t, last := TallyOf(rows[..|rows| - 1], lane), rows[|rows| - 1];
      if last.lane == lane then Counted(t, last) else t
  }

  /** The dictionary the run fills, and its key order. */
  function Ledger(rows: seq<Attempt>): map<string, Tally> {
    if rows == [] then map[] else
      var m, last := Ledger(rows[..|rows| - 1]), rows[|rows| - 1];
      m[last.lane := Counted(if last.lane in m then m[last.lane] else EMPTY, last)]
  }

  function LaneOrder(rows: seq<Attempt>): seq<string> {
    if rows == [] then [] else
      var order, last := LaneOrder(rows[..|rows| - 1]), rows[|rows| - 1];
      if last.lane in order then order else order + [last.lane]
  }

  lemma {:induction false} LedgerSnoc(rows: seq<Attempt>, a: Attempt)
    ensures Ledger(rows + [a])
        == Ledger(rows)[a.lane := Counted(if a.lane in Ledger(rows) then Ledger(rows)[a.lane] else EMPTY, a)]
    ensures LaneOrder(rows + [a]) == if a.lane in LaneOrder(rows) then LaneOrder(rows) else LaneOrder(rows) + [a.lane]
  {
    assert (rows + [a])[..|rows + [a]| - 1] == rows;
  }

  /** The dictionary holds, for exactly the lanes that have a row, that lane's own counters; its order lists them
      once. */
  lemma {:induction false} LedgerIsTallies(rows: seq<Attempt>, lane: string)
    ensures lane in Ledger(rows) <==> exists a :: a in rows && a.lane == lane
    ensures (if lane in Ledger(rows) then Ledger(rows)[lane] else EMPTY) == TallyOf(rows, lane)
    ensures lane in LaneOrder(rows) <==> lane in Ledger(rows)
    ensures NoDuplicates(LaneOrder(rows))
  {
    if rows != [] {
      var front, last := rows[..|rows| - 1], rows[|rows| - 1];
      LastSplit(rows);
      LedgerIsTallies(front, lane);
      LedgerIsTallies(front, last.lane);
      if a :| a in front && a.lane == lane {
        assert a in rows;
      }
      assert last in rows;
    }
  }

  class Counters {
    var lanes: map<string, Tally>
    var order: seq<string>

    ghost predicate Tracks(rows: seq<Attempt>)
      reads this
    {
      lanes == Ledger(rows) && order == LaneOrder(rows)
    }

    constructor ()
      ensures Tracks([])
    {
      lanes, order := map[], [];
    }

    /** Books one attempt on its lane, opening the lane's counters if it is the first. */
    method Book(ghost rows: seq<Attempt>, a: Attempt)
      requires Tracks(rows)
      modifies this
      ensures Tracks(rows + [a])
    {
      LedgerSnoc(rows, a);
      LedgerIsTallies(rows, a.lane);
      if a.lane !in lanes {
        lanes, order := lanes[a.lane := EMPTY], order + [a.lane];
      }
      var c := Booked(lanes[a.lane], a);
      lanes := lanes[a.lane := c];
    }
  }

  method Booked(was: Tally, a: Attempt) returns (c: Tally)
    ensures c == Counted(was, a)
  {
    c := was.(attempts := was.attempts + 1);
    if a.excluded {
      c := c.(excluded := c.excluded + 1, mismatches := c.mismatches + 1);
    } else {
      if a.passed {
        c := c.(passed := c.passed + 1);
      }
      match a.cost
      case Unknown(reason) => c := c.(missing := c.missing + [reason]);
      case Usd(amount) => c := c.(costSum := c.costSum + amount, costed := c.costed + 1);
    }
  }

  method RunTasks(b: Bench) returns (attempts: seq<Attempt>, counts: Counters)
    ensures attempts == RunRows(b, b.tasks) && fresh(counts) && counts.Tracks(attempts)
  {
    hide AttemptOf, Ledger, LaneOrder;
    attempts := [];
    counts := new Counters();
    for i := 0 to b.tasks
      invariant attempts == RunRows(b, i) && fresh(counts) && counts.Tracks(attempts)
    {
      assert RunRows(b, i) + [] == RunRows(b, i);
      for j := 0 to |b.pairs|
        invariant attempts == RunRows(b, i) + TaskRows(b, i, j) && fresh(counts) && counts.Tracks(attempts)
      {
        var row := AttemptOf(b, i, j);
        counts.Book(attempts, row);
        AppendAssociates(RunRows(b, i), TaskRows(b, i, j), [row]);
        attempts := attempts + [row];
      }
    }
  }

  lemma {:induction false} TaskRowsAt(b: Bench, i: nat, m: nat)
    requires m <= |b.pairs|
    ensures |TaskRows(b, i, m)| == m && forall j | 0 <= j < m :: TaskRows(b, i, m)[j] == AttemptOf(b, i, j)
  {
    if m > 0 {
      TaskRowsAt(b, i, m - 1);
    }
  }

  /** Every task is attempted once on every pair, task by task in pair order. */
  lemma {:induction false} RunRowsAt(b: Bench, n: nat, i: nat, j: nat)
    requires i < n && j < |b.pairs|
    ensures |RunRows(b, n)| == n * |b.pairs| && i * |b.pairs| + j < n * |b.pairs|
    ensures RunRows(b, n)[i * |b.pairs| + j] == AttemptOf(b, i, j)
  {
    var m := |b.pairs|;
    TaskRowsAt(b, n - 1, m);
    assert n * m == (n - 1) * m + m;
    RunLength(b, n - 1);
    if i < n - 1 {
      RunRowsAt(b, n - 1, i, j);
    }
  }

  lemma {:induction false} RunLength(b: Bench, n: nat)
    ensures |RunRows(b, n)| == n * |b.pairs|
  {
    if n > 0 {
      RunLength(b, n - 1);
      TaskRowsAt(b, n - 1, |b.pairs|);
      assert n * |b.pairs| == (n - 1) * |b.pairs| + |b.pairs|;
    }
  }

  // ---------------------------------------------------------------- conservation

  predicate Fails(a: Attempt, lane: string) {
    a.lane == lane && !a.excluded && !a.passed
  }

  function CostSum(rows: seq<Attempt>, lane: string): real {
    if rows == [] then 0.0 else
      var last := rows[|rows| - 1];
      CostSum(rows[..|rows| - 1], lane)
        + if last.lane == lane && !last.excluded && last.cost.Usd? then last.cost.amount else 0.0
  }

  function Attempts(rows: seq<Attempt>, lane: string): nat {
    |Filter((a: Attempt) => a.lane == lane, rows)|
  }

  function Failures(rows: seq<Attempt>, lane: string): nat {
    |Filter((a: Attempt) => Fails(a, lane), rows)|
  }

  /** CONSERVATION: on any ledger, a lane's attempts are its passes, its failures and its exclusions; its samples are
      those with a cost and those with a reason for having none; its cost is the sum over the rows that have one. */
  lemma {:induction false} Conserved(rows: seq<Attempt>, lane: string)
    ensures var t := TallyOf(rows, lane);
      && t.attempts == Attempts(rows, lane)
      && t.attempts == t.passed + Failures(rows, lane) + t.excluded
      && t.attempts == t.costed + |t.missing| + t.excluded
      && t.mismatches == t.excluded && t.costSum == CostSum(rows, lane)
  {
    if rows != [] {
      var front, last := rows[..|rows| - 1], rows[|rows| - 1];
      LastSplit(rows);
      Conserved(front, lane);
      FilterSnoc((a: Attempt) => a.lane == lane, front, last);
      FilterSnoc((a: Attempt) => Fails(a, lane), front, last);
    }
  }

  predicate Excluded(a: Attempt, lane: string) {
    a.lane == lane && a.excluded
  }

  predicate Costed(a: Attempt, lane: string) {
    a.lane == lane && !a.excluded && a.cost.Usd?
  }

  /** The remaining counters: as many exclusions and samples with a cost as there are such rows, and for a sample
      without one its own reason. */
  lemma {:induction false} CountersExactly(rows: seq<Attempt>, lane: string)
    ensures var t := TallyOf(rows, lane);
      && t.excluded == |Filter((a: Attempt) => Excluded(a, lane), rows)|
      && t.costed == |Filter((a: Attempt) => Costed(a, lane), rows)|
      && forall r :: r in t.missing
           <==> exists a :: a in rows && a.lane == lane && !a.excluded && a.cost == Unknown(r)
  {
    if rows != [] {
      var front, last := rows[..|rows| - 1], rows[|rows| - 1];
      LastSplit(rows);
      CountersExactly(front, lane);
      FilterSnoc((a: Attempt) => Excluded(a, lane), front, last);
      FilterSnoc((a: Attempt) => Costed(a, lane), front, last);
      assert last in rows;
      assert forall a | a in front :: a in rows;
      assert forall a | a in rows :: a in front || a == last;
    }
  }

  /** Every attempt of the lane was served by it and has a cost. */
  ghost predicate AllCosted(rows: seq<Attempt>, lane: string) {
    forall a | a in rows && a.lane == lane :: !a.excluded && a.cost.Usd?
  }

  ghost predicate SomePassed(rows: seq<Attempt>, lane: string) {
    exists a :: a in rows && a.lane == lane && !a.excluded && a.passed
  }

  /** What the counters say of single rows. */
  lemma {:induction false} TallyShows(rows: seq<Attempt>, lane: string)
    ensures var t := TallyOf(rows, lane);
      && (t.excluded == 0 && t.missing == [] <==> AllCosted(rows, lane))
      && (t.passed > 0 <==> SomePassed(rows, lane))
  {
    if rows != [] {
      var front, last := rows[..|rows| - 1], rows[|rows| - 1];
      LastSplit(rows);
      TallyShows(front, lane);
      assert last in rows;
      assert forall a | a in front :: a in rows;
      assert forall a | a in rows :: a in front || a == last;
    }
  }

  // ---------------------------------------------------------------- the ranking

  datatype Entry = Entry(lane: string, usable: int, passed: nat, perAttempt: Option<real>, perPassed: Option<real>,
      measured: bool)

  function Ratio(sum: real, n: nat): Option<real> {
    if n == 0 then None else Some(sum / n as real)
  }

  function EntryOf(lane: string, c: Tally, floor: int): Entry {
    var usable := c.attempts - c.excluded;
    var complete := c.costed == usable && c.missing == [];
    Entry(lane, usable, c.passed,
          if complete then Ratio(c.costSum, c.costed) else None,
          if complete then Ratio(c.costSum, c.passed) else None,
          !(usable < floor || c.passed == 0 || c.missing != []
            || (c.costed < usable && c.missing == []) || c.mismatches != 0))
  }

  function SortCost(e: Entry): real {
    if e.measured && e.perPassed.Some? then e.perPassed.value else 0.0
  }

  /** Measured lanes first, among them the cheaper per passed task. */
  predicate EntryLe(a: Entry, b: Entry) {
    if a.measured != b.measured then a.measured else SortCost(a) <= SortCost(b)
  }

  function Entries(lanes: map<string, Tally>, order: seq<string>, floor: int): seq<Entry> {
    MapSeq((lane: string) => EntryOf(lane, if lane in lanes then lanes[lane] else EMPTY, floor), order)
  }

  function Ranked(lanes: map<string, Tally>, order: seq<string>, floor: int): seq<Entry> {
    SortBy(EntryLe, Entries(lanes, SortBy(StrLe, order), floor))
  }

  method RankOne(lane: string, c: Tally, floor: int) returns (entry: Entry)
    ensures entry == EntryOf(lane, c, floor)
  {
    var usable := c.attempts - c.excluded;
    var complete := c.costed == usable && c.missing == [];
    var measured := true;
    if usable < floor {
      measured := false;
    }
    if c.passed == 0 {
      measured := false;
    }
    if c.missing != [] {
      measured := false;
    }
    if c.costed < usable && c.missing == [] {
      measured := false;
    }
    if c.mismatches != 0 {
      measured := false;
    }
    return Entry(lane, usable, c.passed, if complete then Ratio(c.costSum, c.costed) else None,
                 if complete then Ratio(c.costSum, c.passed) else None, measured);
  }

  method RankAll(lanes: map<string, Tally>, sorted: seq<string>, floor: int) returns (out: seq<Entry>)
    requires forall lane | lane in sorted :: lane in lanes
    ensures out == Entries(lanes, sorted, floor)
  {
    out := [];
    for n := 0 to |sorted|
      invariant |out| == n && forall i | 0 <= i < n :: out[i] == EntryOf(sorted[i], lanes[sorted[i]], floor)
    {
      var entry := RankOne(sorted[n], lanes[sorted[n]], floor);
      out := out + [entry];
    }
  }

  method RankLanes(lanes: map<string, Tally>, order: seq<string>, floor: int) returns (out: seq<Entry>)
    requires forall lane | lane in order :: lane in lanes
    ensures out == Ranked(lanes, order, floor)
  {
    SortPermutes(StrLe, order);
    out := RankAll(lanes, SortBy(StrLe, order), floor);
    out := SortBy(EntryLe, out);
  }

  /** MEASURED: in a finished run a lane is measured exactly when no attempt of it was served elsewhere, every one has
      a cost, at least one passed and there are enough of them; its price is then its whole cost per pass. */
  lemma {:induction false} MeasuredExactly(rows: seq<Attempt>, lane: string, floor: int)
    ensures var e := EntryOf(lane, TallyOf(rows, lane), floor);
      && (e.measured <==>
            && AllCosted(rows, lane) && SomePassed(rows, lane)
            && Attempts(rows, lane) >= floor)
      && (e.measured ==> e.perPassed.Some? && e.perPassed.value * e.passed as real == CostSum(rows, lane))
      && (e.measured ==> e.perAttempt.Some? && e.perAttempt.value * e.usable as real == CostSum(rows, lane))
  {
    var t := TallyOf(rows, lane);
    Conserved(rows, lane);
    TallyShows(rows, lane);
    hide *;
    MeasuredTally(lane, t, floor);
  }

  lemma {:induction false} MeasuredTally(lane: string, t: Tally, floor: int)
    requires t.attempts == t.costed + |t.missing| + t.excluded && t.mismatches == t.excluded
    ensures var e := EntryOf(lane, t, floor);
      && (e.measured <==> t.excluded == 0 && t.missing == [] && t.passed > 0 && t.attempts >= floor)
      && (e.measured ==> e.perPassed.Some? && e.perPassed.value * e.passed as real == t.costSum)
      && (e.measured && t.passed <= t.costed
          ==> e.perAttempt.Some? && e.perAttempt.value * e.usable as real == t.costSum)
  {
  }

  ghost predicate NoneMissing(rows: seq<Attempt>, lane: string) {
    forall a | a in rows && a.lane == lane && !a.excluded :: a.cost.Usd?
  }

  /** The figures of any lane, measured or not: its samples, and the two rates, given exactly when every sample has a
      cost and there is something to divide by. */
  lemma {:induction false} FiguresExactly(rows: seq<Attempt>, lane: string, floor: int)
    ensures var t, e := TallyOf(rows, lane), EntryOf(lane, TallyOf(rows, lane), floor);
      && e.lane == lane && e.passed == t.passed && e.usable == t.attempts - t.excluded
      && (e.perAttempt.Some? <==> NoneMissing(rows, lane) && e.usable > 0)
      && (e.perPassed.Some? <==> NoneMissing(rows, lane) && e.passed > 0)
      && (e.perAttempt.Some? ==> e.perAttempt.value * e.usable as real == CostSum(rows, lane))
      && (e.perPassed.Some? ==> e.perPassed.value * e.passed as real == CostSum(rows, lane))
  {
    hide *;
    Conserved(rows, lane);
    MissingNone(rows, lane);
    FigureTally(lane, TallyOf(rows, lane), floor);
  }

  lemma {:induction false} MissingNone(rows: seq<Attempt>, lane: string)
    ensures TallyOf(rows, lane).missing == [] <==> NoneMissing(rows, lane)
  {
    hide TallyOf;
    var missing := TallyOf(rows, lane).missing;
    CountersExactly(rows, lane);
    if missing != [] {
      assert missing[0] in missing;
    }
  }

  lemma {:induction false} FigureTally(lane: string, t: Tally, floor: int)
    requires t.attempts == t.costed + |t.missing| + t.excluded
    ensures var e := EntryOf(lane, t, floor);
      && e.lane == lane && e.passed == t.passed && e.usable == t.attempts - t.excluded
      && (e.perAttempt.Some? <==> t.missing == [] && e.usable > 0)
      && (e.perPassed.Some? <==> t.missing == [] && e.passed > 0)
      && (e.perAttempt.Some? ==> e.perAttempt.value * e.usable as real == t.costSum)
      && (e.perPassed.Some? ==> e.perPassed.value * e.passed as real == t.costSum)
  {
  }

  /** RANKING: the list of a run names every lane once, all measured ones first and in ascending cost per passed
      task, so a cheap lane that fails cannot lead it. */
  lemma {:induction false} RankedInOrder(rows: seq<Attempt>, floor: int)
    ensures var out := Ranked(Ledger(rows), LaneOrder(rows), floor);
      && multiset(out) == multiset(Entries(Ledger(rows), LaneOrder(rows), floor))
      && forall i, j | 0 <= i < j < |out| && out[j].measured ::
           out[i].measured && out[i].perPassed.Some? && out[j].perPassed.Some?
               && out[i].perPassed.value <= out[j].perPassed.value
    ensures var out := Ranked(Ledger(rows), LaneOrder(rows), floor);
      forall i, j | 0 <= i < j < |out| && out[i].measured == out[j].measured
          && (out[i].measured ==> out[i].perPassed == out[j].perPassed) ::
        StrLe(out[i].lane, out[j].lane)
  {
    var sorted := SortBy(StrLe, LaneOrder(rows));
    var es := Entries(Ledger(rows), sorted, floor);
    RankedPermutes(Ledger(rows), LaneOrder(rows), floor);
    EntryOrder();
    SortSorts(EntryLe, es);
    SortPermutes(EntryLe, es);
    MeasuredPriced(rows, sorted, floor);
    CheapestFirst(SortBy(EntryLe, es));
    ByLane(Ledger(rows), LaneOrder(rows), floor);
    SortStable(EntryLe, LaneBefore, es);
    TiesByLane(SortBy(EntryLe, es));
  }

  predicate LaneBefore(a: Entry, b: Entry) {
    StrLe(a.lane, b.lane)
  }

  lemma {:induction false} ByLane(lanes: map<string, Tally>, order: seq<string>, floor: int)
    ensures SortedBy(LaneBefore, Entries(lanes, SortBy(StrLe, order), floor))
  {
    StrLeOrder();
    SortSorts(StrLe, order);
    hide StrLe, SortBy;
  }

  lemma {:induction false} TiesByLane(out: seq<Entry>)
    requires Stable(EntryLe, LaneBefore, out)
    ensures forall i, j | 0 <= i < j < |out| && out[i].measured == out[j].measured
        && (out[i].measured ==> out[i].perPassed == out[j].perPassed) :: StrLe(out[i].lane, out[j].lane)
  {
    hide StrLe;
    forall i, j | 0 <= i < j < |out| && out[i].measured == out[j].measured
        && (out[i].measured ==> out[i].perPassed == out[j].perPassed)
      ensures StrLe(out[i].lane, out[j].lane)
    {
      assert EntryLe(out[j], out[i]);
    }
  }

  lemma {:induction false} EntryOrder()
    ensures TotalPreorder(EntryLe)
  {
  }

  lemma {:induction false} RankedPermutes(lanes: map<string, Tally>, order: seq<string>, floor: int)
    ensures multiset(Ranked(lanes, order, floor)) == multiset(Entries(lanes, order, floor))
  {
    SortPermutes(StrLe, order);
    MapMultiset((lane: string) => EntryOf(lane, if lane in lanes then lanes[lane] else EMPTY, floor),
        SortBy(StrLe, order), order);
    SortPermutes(EntryLe, Entries(lanes, SortBy(StrLe, order), floor));
  }

  lemma {:induction false} MeasuredPriced(rows: seq<Attempt>, order: seq<string>, floor: int)
    ensures forall e | e in Entries(Ledger(rows), order, floor) :: e.measured ==> e.perPassed.Some?
  {
    var es := Entries(Ledger(rows), order, floor);
    forall i | 0 <= i < |es| ensures es[i].measured ==> es[i].perPassed.Some? {
      LedgerIsTallies(rows, order[i]);
      Conserved(rows, order[i]);
      MeasuredTally(order[i], TallyOf(rows, order[i]), floor);
    }
  }

  lemma {:induction false} CheapestFirst(out: seq<Entry>)
    requires SortedBy(EntryLe, out) && forall e | e in out :: e.measured ==> e.perPassed.Some?
    ensures forall i, j | 0 <= i < j < |out| && out[j].measured ::
      out[i].measured && out[i].perPassed.Some? && out[j].perPassed.Some?
          && out[i].perPassed.value <= out[j].perPassed.value
  {
    forall i, j | 0 <= i < j < |out| && out[j].measured
      ensures out[i].measured && out[i].perPassed.Some? && out[j].perPassed.Some?
      ensures out[i].perPassed.value <= out[j].perPassed.value
    {
      assert EntryLe(out[i], out[j]);
      assert out[i] in out && out[j] in out;
    }
  }

  /** The ranking depends on the counters alone, not on the order in which lanes were first tried. */
  lemma {:induction false} RankingByCounters(lanes: map<string, Tally>, a: seq<string>, b: seq<string>, floor: int)
    requires NoDuplicates(a) && NoDuplicates(b) && forall lane :: lane in a <==> lane in b
    ensures Ranked(lanes, a, floor) == Ranked(lanes, b, floor)
  {
    SameElementsSameMultiset(a, b);
    StrLeOrder();
    SortPermutes(StrLe, a);
    SortPermutes(StrLe, b);
    SortSorts(StrLe, a);
    SortSorts(StrLe, b);
    forall x, y | x in SortBy(StrLe, a) && y in SortBy(StrLe, a) && StrLe(x, y) && StrLe(y, x) ensures x == y {
      StrLeAntisymmetric(x, y);
    }
    SortedUnique(StrLe, SortBy(StrLe, a), SortBy(StrLe, b));
  }
}
