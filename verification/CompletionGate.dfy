/** The completion gate: what counts as criteria and evidence, and the gated write of a completion as a machine over
    an append-only board where the last row of an id is its state. */
module CompletionGate {
  import opened Prelude

  /** A JSON value; a number keeps its text, whether it is zero and whether it is whole. */
  datatype Json = Null | Bool(b: bool) | Number(text: string, zero: bool, whole: bool) | Text(s: string)
                | List(items: seq<Json>) | Object(fields: map<string, Json>)

  type Row = map<string, Json>

  type Log = seq<Row>

  /** The string library: white space, case, the two patterns of measured evidence, and reading nested JSON text. */
  datatype Words = Words(strip: string -> string, lower: string -> string, digit: string -> bool,
      extension: string -> bool, loads: string -> Option<Json>)

  const RUN_KEYS: seq<string> := ["run_id", "evidence_run_id", "run_ids", "runs"]
  const NUMBER_KEYS: seq<string> := ["measured", "measurement", "number", "value", "metric"]
  const TEXT_KEYS: seq<string> :=
    ["artifact", "artifact_path", "path", "locator", "url", "witness", "detail", "note", "summary", "claim", "text"]

  function Field(row: Row, key: string): Json {
    if key in row then row[key] else Null
  }

  function Items(v: Json): seq<Json> {
    if v.List? then v.items else [v]
  }

  predicate Inked(w: Words, v: Json) {
    v.Text? && w.strip(v.s) != ""
  }

  // ---------------------------------------------------------------- criteria and evidence

  predicate CriteriaOk(w: Words, row: Row) {
    exists v :: v in Items(Field(row, "acceptance_criteria")) && Inked(w, v)
  }

  function AfterFive(s: string): string {
    if |s| >= 5 then s[5..] else ""
  }

  /** `none:` followed by a reason. */
  predicate StatesNull(w: Words, s: string) {
    "none:" <= w.lower(w.strip(s)) && w.strip(AfterFive(w.strip(s))) != ""
  }

  predicate EvidenceText(w: Words, s: string) {
    var t := w.strip(s);
    t != "" && if "none:" <= w.lower(t) then StatesNull(w, s) else w.digit(t) || '/' in t || w.extension(t)
  }

  predicate BindingValue(w: Words, v: Json) {
    match v
    case Number(_, _, _) => true
    case Text(s) => EvidenceText(w, s)
    case List(items) => exists i | 0 <= i < |items| :: BindingValue(w, items[i])
    case _ => false
  }

  predicate BindingObject(w: Words, fields: Row) {
    || (exists k | k in RUN_KEYS :: k in fields && (Inked(w, fields[k]) || (fields[k].Number? && fields[k].whole)))
    || (exists k | k in NUMBER_KEYS :: k in fields && BindingValue(w, fields[k]))
    || (exists k | k in TEXT_KEYS :: k in fields && BindingValue(w, fields[k]))
  }

  predicate EvidenceItem(w: Words, v: Json) {
    match v
    case Text(s) => EvidenceText(w, s)
    case Object(fields) => BindingObject(w, fields)
    case _ => false
  }

  predicate AnyEvidence(w: Words, v: Json) {
    exists item :: item in Items(v) && EvidenceItem(w, item)
  }

  predicate WitnessOk(w: Words, v: Json) {
    Inked(w, v) && ("none:" <= w.lower(w.strip(v.s)) ==> StatesNull(w, v.s))
  }

  /** The first of the two evidence fields that is present decides; only without either does a witness or a stated
      reason count. */
  predicate EvidenceOk(w: Words, row: Row) {
    if AnyEvidence(w, Field(row, "evidence")) then true
    else if Field(row, "evidence") != Null then false
    else if AnyEvidence(w, Field(row, "evidence_artifact")) then true
    else if Field(row, "evidence_artifact") != Null then false
    else WitnessOk(w, Field(row, "witness")) || Inked(w, Field(row, "evidence_none"))
  }

  predicate Proven(w: Words, row: Row) {
    CriteriaOk(w, row) && EvidenceOk(w, row)
  }

  // ---------------------------------------------------------------- the gate

  datatype Problem = NoCriteria | NoEvidence | ScaleRefusal

  predicate TerminalStatus(w: Words, status: Json) {
    status.Text? && w.lower(w.strip(status.s)) in {"complete", "done"}
  }

  predicate Terminal(w: Words, row: Row) {
    TerminalStatus(w, Field(row, "status"))
  }

  /** Only a move into a terminal status is judged. The envelope checks can only add a refusal. */
  function Evaluate(w: Words, row: Row, prevStatus: Json, scaleRefuses: bool): seq<Problem> {
    if !Terminal(w, row) || TerminalStatus(w, prevStatus) then []
    else
      (if CriteriaOk(w, row) then [] else [NoCriteria])
      + (if EvidenceOk(w, row) then [] else [NoEvidence])
      + (if scaleRefuses then [ScaleRefusal] else [])
  }

  // ---------------------------------------------------------------- the board

  function IdOf(row: Row): Option<string> {
    match Field(row, "id")
    case Text(s) => if s != "" then Some(s) else None
    case Number(text, zero, _) => if zero then None else Some(text)
    case _ => None
  }

  /** The last row of each id. */
  function Latest(log: Log): map<string, Row> {
    if log == [] then map[] else
      var latest, last := Latest(log[..|log| - 1]), log[|log| - 1];
      if IdOf(last).Some? then latest[IdOf(last).value := last] else latest
  }

  lemma {:induction false} LatestSnoc(log: Log, row: Row)
    ensures Latest(log + [row]) == if IdOf(row).Some? then Latest(log)[IdOf(row).value := row] else Latest(log)
  {
    assert (log + [row])[..|log + [row]| - 1] == log;
  }

  method LatestById(log: Log) returns (latest: map<string, Row>)
    ensures latest == Latest(log)
  {
    latest := map[];
    for n := 0 to |log|
      invariant latest == Latest(log[..n])
    {
      LatestSnoc(log[..n], log[n]);
      assert log[..n + 1] == log[..n] + [log[n]];
      if IdOf(log[n]).Some? {
        latest := latest[IdOf(log[n]).value := log[n]];
      }
    }
    assert log[..|log|] == log;
  }

  datatype Call = Call(id: string, sets: Row, now: Json, dryRun: bool, prevStatus: Json, scaleRefuses: bool)

  datatype Verdict = NoRow | Refused(problems: seq<Problem>) | Passed(row: Row) | Appended(row: Row)

  function Stamp(now: Json): Json {
    Object(map["gate" := Text("board_complete_gate"), "row" := Text("TR-249+TR-252"), "at" := now,
        "verdict" := Text("pass")])
  }

  function Candidate(prev: Row, call: Call): Row {
    (prev + call.sets)["updated_at" := call.now]
  }

  function Stamped(row: Row, now: Json): Row {
    row["completion_gate" := Stamp(now)]
  }

  function EffectivePrev(prev: Row, call: Call): Json {
    if call.prevStatus != Null then call.prevStatus else Field(prev, "status")
  }

  /** What one call answers on a board. */
  function Answer(w: Words, log: Log, call: Call): Verdict {
    if call.id !in Latest(log) then NoRow else
      var prev := Latest(log)[call.id];
      var row := Candidate(prev, call);
      var problems := Evaluate(w, row, EffectivePrev(prev, call), call.scaleRefuses);
      if problems != [] then Refused(problems)
      else if call.dryRun then Passed(Stamped(row, call.now))
      else Appended(Stamped(row, call.now))
  }

  function After(w: Words, log: Log, call: Call): Log {
    var verdict := Answer(w, log, call);
    if verdict.Appended? then log + [verdict.row] else log
  }

  function Run(w: Words, log: Log, calls: seq<Call>): Log {
    if calls == [] then log else After(w, Run(w, log, calls[..|calls| - 1]), calls[|calls| - 1])
  }

  class Board {
    var rows: Log

    constructor (rows: Log)
      ensures this.rows == rows
    {
      this.rows := rows;
    }

    /** The gated write: refuses before anything is written, and otherwise appends one stamped row. */
    method AppendCompletion(w: Words, call: Call) returns (verdict: Verdict)
      modifies this
      ensures verdict == Answer(w, old(rows), call)
      ensures rows == After(w, old(rows), call)
      ensures !verdict.Appended? ==> rows == old(rows)
    {
      var latest := LatestById(rows);
      if call.id !in latest {
        return NoRow;
      }
      var row := latest[call.id] + call.sets;
      row := row["updated_at" := call.now];
      var problems := Evaluate(w, row, EffectivePrev(latest[call.id], call), call.scaleRefuses);
      if problems != [] {
        return Refused(problems);
      }
      row := row["completion_gate" := Stamp(call.now)];
      if call.dryRun {
        return Passed(row);
      }
      rows := rows + [row];
      return Appended(row);
    }
  }

  // ---------------------------------------------------------------- what a flip carries

  predicate TerminalAt(w: Words, log: Log, id: string) {
    id in Latest(log) && Terminal(w, Latest(log)[id])
  }

  predicate Flips(w: Words, log: Log, after: Log, id: string) {
    !TerminalAt(w, log, id) && TerminalAt(w, after, id)
  }

  ghost predicate SameOn(a: Row, b: Row, keys: set<string>) {
    forall k | k in keys :: Field(a, k) == Field(b, k)
  }

  const PROOF_FIELDS: set<string> := {"acceptance_criteria", "evidence", "evidence_artifact", "witness",
      "evidence_none"}

  /** The stamp touches nothing the gate looked at. */
  lemma {:induction false} StampKeeps(w: Words, row: Row, now: Json)
    ensures Proven(w, Stamped(row, now)) <==> Proven(w, row)
    ensures Terminal(w, Stamped(row, now)) <==> Terminal(w, row)
    ensures IdOf(Stamped(row, now)) == IdOf(row)
  {
    assert SameOn(row, Stamped(row, now), PROOF_FIELDS + {"status", "id"});
  }

  /** One call flips at most the id on the row it appends, and that row is proven and clear of the envelope checks
      unless the gate was told, or found on another id's row, that the state was terminal already. */
  lemma {:induction false} FlipIsProven(w: Words, log: Log, call: Call, id: string)
    requires Flips(w, log, After(w, log, call), id)
    ensures Answer(w, log, call).Appended? && IdOf(Answer(w, log, call).row) == Some(id)
    ensures var prev := Latest(log)[call.id];
      if TerminalStatus(w, EffectivePrev(prev, call)) then call.prevStatus != Null || id != call.id
      else Proven(w, Latest(After(w, log, call))[id]) && !call.scaleRefuses
  {
    var verdict := Answer(w, log, call);
    if verdict.Appended? {
      var row := Candidate(Latest(log)[call.id], call);
      LatestSnoc(log, verdict.row);
      StampKeeps(w, row, call.now);
    }
  }

  /** The caller neither overrides the previous status nor renames the row. */
  predicate Straight(call: Call) {
    call.prevStatus == Null && "id" !in call.sets
  }

  lemma {:induction false} StraightKeepsId(w: Words, log: Log, call: Call)
    requires Straight(call) && Answer(w, log, call).Appended?
    ensures IdOf(Answer(w, log, call).row) == Some(call.id)
  {
    LatestHasId(log, call.id);
    var prev := Latest(log)[call.id];
    assert Field(Candidate(prev, call), "id") == Field(prev, "id");
    StampKeeps(w, Candidate(prev, call), call.now);
  }

  lemma {:induction false} LatestHasId(log: Log, id: string)
    requires id in Latest(log)
    ensures IdOf(Latest(log)[id]) == Some(id) && Latest(log)[id] in log
  {
    var front, last := log[..|log| - 1], log[|log| - 1];
    LastSplit(log);
    if IdOf(last) != Some(id) {
      LatestHasId(front, id);
    }
  }

  /** COMPLETION SAFETY: over any run of straight calls, every step that moves an id into a terminal state appends
      that id's row with criteria and accepted evidence, past the envelope checks. */
  lemma {:induction false} CompletionsProven(w: Words, log: Log, calls: seq<Call>, n: nat, id: string)
    requires n < |calls| && Straight(calls[n])
    requires Flips(w, Run(w, log, calls[..n]), Run(w, log, calls[..n + 1]), id)
    ensures Proven(w, Latest(Run(w, log, calls[..n + 1]))[id]) && !calls[n].scaleRefuses
    ensures |Run(w, log, calls[..n + 1])| == |Run(w, log, calls[..n])| + 1 && id == calls[n].id
  {
    var before := Run(w, log, calls[..n]);
    assert calls[..n + 1][..n] == calls[..n];
    FlipIsProven(w, before, calls[n], id);
    StraightKeepsId(w, before, calls[n]);
  }

  // ---------------------------------------------------------------- the two ways round the gate

  /** A row that says nothing about criteria or evidence. */
  ghost predicate Bare(row: Row) {
    forall k | k in PROOF_FIELDS :: k !in row
  }

  lemma {:induction false} BareUnproven(w: Words, row: Row)
    requires Bare(row)
    ensures !CriteriaOk(w, row) && !EvidenceOk(w, row)
  {
    assert forall k | k in PROOF_FIELDS :: Field(row, k) == Null;
  }

  /** What an unjudged call writes. */
  lemma {:induction false} Unjudged(w: Words, log: Log, call: Call)
    requires call.id in Latest(log) && !call.dryRun && TerminalStatus(w, EffectivePrev(Latest(log)[call.id], call))
    ensures var out := Stamped(Candidate(Latest(log)[call.id], call), call.now);
      && After(w, log, call) == log + [out]
      && Latest(log + [out]) == if IdOf(out).Some? then Latest(log)[IdOf(out).value := out] else Latest(log)
  {
    LatestSnoc(log, Stamped(Candidate(Latest(log)[call.id], call), call.now));
  }

  /** Told that the previous status was terminal, the gate completes any row, whatever it lacks. */
  lemma {:induction false} OverrideUngated(w: Words, log: Log, call: Call)
    requires call.id in Latest(log) && !TerminalAt(w, log, call.id) && !call.dryRun && "id" !in call.sets
    requires TerminalStatus(w, call.prevStatus) && TerminalStatus(w, Field(call.sets, "status"))
    requires Bare(Latest(log)[call.id]) && Bare(call.sets)
    ensures var after := After(w, log, call);
      && Flips(w, log, after, call.id)
      && !CriteriaOk(w, Latest(after)[call.id]) && !EvidenceOk(w, Latest(after)[call.id])
  {
    var row := Candidate(Latest(log)[call.id], call);
    LatestHasId(log, call.id);
    Unjudged(w, log, call);
    StampKeeps(w, row, call.now);
    assert Field(row, "id") == Field(Latest(log)[call.id], "id") && Field(row, "status") == Field(call.sets, "status");
    BareUnproven(w, Stamped(row, call.now));
  }

  /** A re-append of a finished row under another id completes that other row, whatever it lacks. */
  lemma {:induction false} RenamedUngated(w: Words, log: Log, call: Call, other: string)
    requires TerminalAt(w, log, call.id) && !TerminalAt(w, log, other) && !call.dryRun && call.prevStatus == Null
    requires other != "" && call.sets == map["id" := Text(other)] && Bare(Latest(log)[call.id])
    ensures var after := After(w, log, call);
      && Flips(w, log, after, other)
      && !CriteriaOk(w, Latest(after)[other]) && !EvidenceOk(w, Latest(after)[other])
  {
    var row := Candidate(Latest(log)[call.id], call);
    Unjudged(w, log, call);
    StampKeeps(w, row, call.now);
    assert Field(row, "id") == Text(other) && Field(row, "status") == Field(Latest(log)[call.id], "status");
    BareUnproven(w, Stamped(row, call.now));
  }

  /** An evidence field that is present but names nothing hides every other form of evidence. */
  lemma {:induction false} EvidenceShadows(w: Words, row: Row, k: string, v: Json)
    requires Field(row, "evidence") != Null && !AnyEvidence(w, Field(row, "evidence")) && k != "evidence"
    ensures !EvidenceOk(w, row[k := v])
  {
    assert Field(row[k := v], "evidence") == Field(row, "evidence");
  }
}
