/** What the two completion gates answer, said of the fields of a row and not of the gates' own predicates. */
module GateVerdicts {
  import opened Prelude
  import opened CompletionGate
  import opened BoundaryGate

  // ---------------------------------------------------------------- what a field says

  /** A text that is not blank. */
  predicate HasInk(w: Words, v: Json) {
    v.Text? && w.strip(v.s) != ""
  }

  /** A status that completes a row. */
  predicate Completes(w: Words, v: Json) {
    v.Text? && (w.lower(w.strip(v.s)) == "complete" || w.lower(w.strip(v.s)) == "done")
  }

  /** The text claims that there is nothing to show. */
  predicate ClaimsNone(w: Words, s: string) {
    "none:" <= w.lower(w.strip(s))
  }

  /** Something stands behind the first five characters of the text. */
  predicate GivesReason(w: Words, s: string) {
    var t := w.strip(s);
    w.strip(t[if |t| < 5 then |t| else 5..]) != ""
  }

  /** A text names a measured number or an artifact, or claims none and gives a reason. */
  predicate NamesProof(w: Words, s: string) {
    && w.strip(s) != ""
    && if ClaimsNone(w, s) then GivesReason(w, s)
       else w.digit(w.strip(s)) || '/' in w.strip(s) || w.extension(w.strip(s))
  }

  /** The values inside nested lists. */
  function Leaves(v: Json): (s: set<Json>) {
    match v
    case List(items) => set i, l | 0 <= i < |items| && l in Leaves(items[i]) :: l
    case _ => {v}
  }

  /** A measurement, or a text that names proof, alone or in a list. */
  predicate ShowsProof(w: Words, v: Json) {
    exists l :: l in Leaves(v) && (l.Number? || (l.Text? && NamesProof(w, l.s)))
  }

  /** A structured piece of evidence: a run by its id, or one of the known fields with proof in it. */
  predicate BindsProof(w: Words, f: Row) {
    || (exists k :: k in {"run_id", "evidence_run_id", "run_ids", "runs"} && k in f
          && (HasInk(w, f[k]) || (f[k].Number? && f[k].whole)))
    || (exists k :: k in {"measured", "measurement", "number", "value", "metric", "artifact", "artifact_path", "path",
                          "locator", "url", "witness", "detail", "note", "summary", "claim", "text"} && k in f
          && ShowsProof(w, f[k]))
  }

  predicate IsProof(w: Words, v: Json) {
    (v.Text? && NamesProof(w, v.s)) || (v.Object? && BindsProof(w, v.fields))
  }

  /** The field holds proof, alone or as one item of a list. */
  predicate HoldsProof(w: Words, v: Json) {
    if v.List? then exists item :: item in v.items && IsProof(w, item) else IsProof(w, v)
  }

  /** The value of a field that is there, and null otherwise. */
  function At(row: Row, k: string): Json {
    if k in row then row[k] else Null
  }

  predicate HasCriterion(w: Words, row: Row) {
    var v := At(row, "acceptance_criteria");
    if v.List? then exists item :: item in v.items && HasInk(w, item) else HasInk(w, v)
  }

  /** Evidence in the first of the two evidence fields that is there; without either, a witness that is no bare claim
      of nothing, or a stated reason. */
  predicate HasEvidence(w: Words, row: Row) {
    if At(row, "evidence") != Null then HoldsProof(w, At(row, "evidence"))
    else if At(row, "evidence_artifact") != Null then HoldsProof(w, At(row, "evidence_artifact"))
    else
      || (HasInk(w, At(row, "witness")) && (ClaimsNone(w, row["witness"].s) ==> GivesReason(w, row["witness"].s)))
      || HasInk(w, At(row, "evidence_none"))
  }

  // ---------------------------------------------------------------- the gate's predicates are these

  lemma {:induction false} TextIs(w: Words, s: string)
    ensures StatesNull(w, s) <==> ClaimsNone(w, s) && GivesReason(w, s)
    ensures EvidenceText(w, s) <==> NamesProof(w, s)
  {
    var t := w.strip(s);
    if |t| < 5 {
      assert t[|t|..] == "";
    }
  }

  lemma {:induction false} ValueIs(w: Words, v: Json)
    ensures BindingValue(w, v) <==> ShowsProof(w, v)
  {
    match v
    case Text(s) => TextIs(w, s);
    case List(items) =>
      forall i | 0 <= i < |items| ensures BindingValue(w, items[i]) <==> ShowsProof(w, items[i]) {
        ValueIs(w, items[i]);
      }
      ListShows(w, items);
    case _ =>
  }

  lemma {:induction false} ListShows(w: Words, items: seq<Json>)
    ensures ShowsProof(w, List(items)) <==> exists i :: 0 <= i < |items| && ShowsProof(w, items[i])
  {
    if ShowsProof(w, List(items)) {
      var l :| l in Leaves(List(items)) && (l.Number? || (l.Text? && NamesProof(w, l.s)));
      var i :| 0 <= i < |items| && l in Leaves(items[i]);
      assert ShowsProof(w, items[i]);
    }
    if i :| 0 <= i < |items| && ShowsProof(w, items[i]) {
      var l :| l in Leaves(items[i]) && (l.Number? || (l.Text? && NamesProof(w, l.s)));
      assert l in Leaves(List(items));
    }
  }

  lemma {:induction false} ObjectIs(w: Words, f: Row)
    ensures BindingObject(w, f) <==> BindsProof(w, f)
  {
    forall k | k in f ensures BindingValue(w, f[k]) <==> ShowsProof(w, f[k]) {
      ValueIs(w, f[k]);
    }
  }

  lemma {:induction false} HoldsIs(w: Words, v: Json)
    ensures AnyEvidence(w, v) <==> HoldsProof(w, v)
  {
    forall item ensures EvidenceItem(w, item) <==> IsProof(w, item) {
      if item.Text? {
        TextIs(w, item.s);
      } else if item.Object? {
        ObjectIs(w, item.fields);
      }
    }
  }

  lemma {:induction false} EvidenceIs(w: Words, row: Row)
    ensures EvidenceOk(w, row) <==> HasEvidence(w, row)
  {
    HoldsIs(w, Field(row, "evidence"));
    HoldsIs(w, Field(row, "evidence_artifact"));
    if HasInk(w, At(row, "witness")) {
      TextIs(w, row["witness"].s);
    }
  }

  lemma {:induction false} CriterionIs(w: Words, row: Row)
    ensures CriteriaOk(w, row) <==> HasCriterion(w, row)
  {
    var v := Field(row, "acceptance_criteria");
    if CriteriaOk(w, row) {
      var item :| item in Items(v) && Inked(w, item);
      assert HasInk(w, item) && (v.List? ==> item in v.items);
    }
    if item :| item in Items(v) && HasInk(w, item) {
      assert Inked(w, item);
    }
    assert !v.List? ==> v in Items(v);
  }

  // ---------------------------------------------------------------- the verdict

  /** The row as the caller wants it. */
  function Wanted(prev: Row, call: Call): Row {
    prev + call.sets
  }

  /** What the gate writes: the row with its time and the gate's own mark. */
  function Written(prev: Row, call: Call): Row {
    Wanted(prev, call)["updated_at" := call.now]["completion_gate" := Object(
      map["gate" := Text("board_complete_gate"), "row" := Text("TR-249+TR-252"), "at" := call.now,
          "verdict" := Text("pass")])]
  }

  /** The call completes a row that the previous status, the caller's word for it first, says is open. */
  predicate Judged(w: Words, prev: Row, call: Call) {
    && Completes(w, At(Wanted(prev, call), "status"))
    && !Completes(w, if call.prevStatus != Null then call.prevStatus else At(prev, "status"))
  }

  /** What is missing for a completion, in the order in which it is reported. */
  function Missing(w: Words, row: Row, scaleRefuses: bool): seq<Problem> {
    (if HasCriterion(w, row) then [] else [NoCriteria]) + (if HasEvidence(w, row) then [] else [NoEvidence])
    + (if scaleRefuses then [ScaleRefusal] else [])
  }

  /** The time of the write is no field the gate judges. */
  lemma {:induction false} TimeSaysNothing(w: Words, prev: Row, call: Call)
    ensures HasCriterion(w, Candidate(prev, call)) <==> HasCriterion(w, Wanted(prev, call))
    ensures HasEvidence(w, Candidate(prev, call)) <==> HasEvidence(w, Wanted(prev, call))
    ensures Terminal(w, Candidate(prev, call)) <==> Completes(w, At(Wanted(prev, call), "status"))
  {
    var now, was := Candidate(prev, call), Wanted(prev, call);
    assert At(now, "acceptance_criteria") == At(was, "acceptance_criteria");
    assert At(now, "evidence") == At(was, "evidence") && At(now, "evidence_artifact") == At(was, "evidence_artifact");
    assert At(now, "witness") == At(was, "witness") && At(now, "evidence_none") == At(was, "evidence_none");
    assert Field(now, "status") == At(was, "status");
    hide HoldsProof, HasInk, ClaimsNone, GivesReason;
  }

  lemma {:induction false} MissingIs(w: Words, prev: Row, call: Call)
    ensures Evaluate(w, Candidate(prev, call), EffectivePrev(prev, call), call.scaleRefuses)
         == if Judged(w, prev, call) then Missing(w, Wanted(prev, call), call.scaleRefuses) else []
  {
    TimeSaysNothing(w, prev, call);
    CriterionIs(w, Candidate(prev, call));
    EvidenceIs(w, Candidate(prev, call));
    hide HasCriterion, HasEvidence, CriteriaOk, EvidenceOk, Candidate, Wanted;
  }

  /** THE VERDICT, exactly, of every call on every board: no row with this id; or a completion that lacks something,
      refused with all that it lacks and nothing written; or the row as the caller wants it, with its time and the
      gate's mark, appended unless the call is a rehearsal. */
  lemma {:induction false} VerdictExactly(w: Words, log: Log, call: Call)
    ensures call.id !in Latest(log) ==> Answer(w, log, call) == NoRow && After(w, log, call) == log
    ensures call.id in Latest(log) ==>
      var prev := Latest(log)[call.id];
      var missing := Missing(w, Wanted(prev, call), call.scaleRefuses);
      if Judged(w, prev, call) && missing != [] then
        Answer(w, log, call) == Refused(missing) && After(w, log, call) == log
      else if call.dryRun then
        Answer(w, log, call) == Passed(Written(prev, call)) && After(w, log, call) == log
      else
        Answer(w, log, call) == Appended(Written(prev, call)) && After(w, log, call) == log + [Written(prev, call)]
  {
    if call.id in Latest(log) {
      MissingIs(w, Latest(log)[call.id], call);
      hide Evaluate, EffectivePrev, Missing, Judged;
    }
  }

  /** A call that completes an open row and lacks nothing but, perhaps, evidence. */
  ghost predicate NeedsEvidence(w: Words, log: Log, call: Call) {
    && call.id in Latest(log) && !call.dryRun && call.prevStatus == Null && !call.scaleRefuses
    && var prev := Latest(log)[call.id];
       && !Completes(w, At(prev, "status")) && Completes(w, At(Wanted(prev, call), "status"))
       && HasCriterion(w, Wanted(prev, call))
  }

  ghost predicate AppendedIff(w: Words, log: Log, call: Call, proven: bool) {
    if proven then Answer(w, log, call).Appended? && |After(w, log, call)| == |log| + 1
    else Answer(w, log, call) == Refused([NoEvidence]) && After(w, log, call) == log
  }

  lemma {:induction false} EvidenceDecides(w: Words, log: Log, call: Call)
    requires NeedsEvidence(w, log, call)
    ensures AppendedIff(w, log, call, HasEvidence(w, Wanted(Latest(log)[call.id], call)))
  {
    VerdictExactly(w, log, call);
    hide Answer, After, Written, Latest, Wanted, HasCriterion, HasEvidence;
  }

  /** With a text for evidence: exactly when it claims none and gives a reason, or claims something and has a digit, a
      slash or an artifact's extension. */
  lemma {:induction false} TextEvidenceExactly(w: Words, log: Log, call: Call, s: string)
    requires NeedsEvidence(w, log, call) && At(Wanted(Latest(log)[call.id], call), "evidence") == Text(s)
    ensures var t := w.strip(s);
      AppendedIff(w, log, call,
        && t != ""
        && if "none:" <= w.lower(t) then w.strip(t[if |t| < 5 then |t| else 5..]) != ""
           else w.digit(t) || '/' in t || w.extension(t))
  {
    EvidenceDecides(w, log, call);
    hide Answer, After, Latest, Wanted, NeedsEvidence;
  }

  /** With an object for evidence: exactly when it names a run by an inked text or a whole number, or has, in one of the
      known fields, a number or a text that names proof, alone or within lists. */
  lemma {:induction false} ObjectEvidenceExactly(w: Words, log: Log, call: Call, f: Row)
    requires NeedsEvidence(w, log, call) && At(Wanted(Latest(log)[call.id], call), "evidence") == Object(f)
    ensures AppendedIff(w, log, call, BindsProof(w, f))
  {
    EvidenceDecides(w, log, call);
    hide Answer, After, Latest, Wanted, BindsProof, NeedsEvidence;
  }

  /** With neither evidence field: exactly when there is a witness that claims something, or that claims none with a
      reason, or a stated reason of its own. */
  lemma {:induction false} WitnessExactly(w: Words, log: Log, call: Call)
    requires NeedsEvidence(w, log, call)
    requires var row := Wanted(Latest(log)[call.id], call);
      At(row, "evidence") == Null && At(row, "evidence_artifact") == Null
    ensures var row := Wanted(Latest(log)[call.id], call);
      var v, reason := At(row, "witness"), At(row, "evidence_none");
      AppendedIff(w, log, call,
        || (v.Text? && w.strip(v.s) != "" && ("none:" <= w.lower(w.strip(v.s)) ==> GivesReason(w, v.s)))
        || (reason.Text? && w.strip(reason.s) != ""))
  {
    EvidenceDecides(w, log, call);
    hide Answer, After, Latest, Wanted, GivesReason, NeedsEvidence;
  }

  // ---------------------------------------------------------------- the state of an id

  /** The row is one of this id: a text id as it stands, a number by its text; an empty text and zero are no ids. */
  predicate HasId(row: Row, id: string) {
    match At(row, "id")
    case Text(s) => s == id && id != ""
    case Number(text, zero, _) => text == id && !zero
    case _ => false
  }

  /** No row behind the `i`-th has the id. */
  ghost predicate LastOfId(log: Log, id: string, i: nat) {
    i < |log| && HasId(log[i], id) && forall j | i < j < |log| :: !HasId(log[j], id)
  }

  lemma {:induction false} LastOfFront(log: Log, id: string, i: nat)
    requires log != []
    ensures LastOfId(log, id, i) <==>
      if HasId(log[|log| - 1], id) then i == |log| - 1 else LastOfId(log[..|log| - 1], id, i)
  {
    hide HasId;
  }

  lemma {:induction false} IdIs(row: Row, id: string)
    ensures HasId(row, id) <==> IdOf(row) == Some(id)
  {
  }

  /** The state of an id is the last row that has it. */
  lemma {:induction false} LatestExactly(log: Log, id: string)
    ensures id in Latest(log) <==> exists i: nat :: LastOfId(log, id, i)
    ensures forall i: nat | LastOfId(log, id, i) :: id in Latest(log) && Latest(log)[id] == log[i]
  {
    if log != [] {
      LatestExactly(log[..|log| - 1], id);
      hide *;
      LatestStep(log, id);
      var front, last := log[..|log| - 1], log[|log| - 1];
      forall i: nat
        ensures LastOfId(log, id, i) ==> i < |log|
        ensures LastOfId(log, id, i) <==> if HasId(last, id) then i == |log| - 1 else LastOfId(front, id, i)
      {
        LastOfFront(log, id, i);
        LastOfThere(log, id, i);
      }
      assert HasId(last, id) ==> LastOfId(log, id, |log| - 1);
    }
  }

  lemma {:induction false} LatestStep(log: Log, id: string)
    requires log != []
    ensures var front, last := log[..|log| - 1], log[|log| - 1];
      && (id in Latest(log) <==> HasId(last, id) || id in Latest(front))
      && (id in Latest(log) ==> Latest(log)[id] == if HasId(last, id) then last else Latest(front)[id])
  {
    IdIs(log[|log| - 1], id);
    hide HasId, IdOf;
  }

  // ---------------------------------------------------------------- the boundary

  /** The value names a run: a text with ink, a number but zero, or anything else that is not false or empty. */
  predicate NamesRun(w: Words, v: Json) {
    match v
    case Null => false
    case Bool(b) => b
    case Number(_, zero, _) => !zero
    case Text(s) => s != "" && w.strip(s) != ""
    case List(items) => |items| > 0
    case Object(fields) => |fields| > 0
  }

  /** The evidence listed in the detail, which is an object or the text of one. */
  function ListedEvidence(w: Words, row: Row): seq<Json> {
    var d := At(row, "detail");
    var f := if d.Object? then Some(d)
             else if d.Text? && w.loads(d.s).Some? && w.loads(d.s).value.Object? then w.loads(d.s) else None;
    if f.Some? && At(f.value.fields, "evidence").List? then At(f.value.fields, "evidence").items else []
  }

  /** What the boundary accepts: a run by its id, on the row or in its detail; a stated reason, as a field or as a
      witness that claims none; or the evidence the completion gate asks for. */
  predicate Shows(w: Words, row: Row) {
    || NamesRun(w, At(row, "evidence_run_id"))
    || (exists ev :: ev in ListedEvidence(w, row) && ev.Object? && NamesRun(w, At(ev.fields, "run_id")))
    || HasInk(w, At(row, "evidence_none"))
    || (At(row, "witness").Text? && ClaimsNone(w, row["witness"].s) && GivesReason(w, row["witness"].s))
    || HasEvidence(w, row)
  }

  lemma {:induction false} RunIs(w: Words, v: Json)
    ensures SaysSomething(w, v) <==> NamesRun(w, v)
  {
    if v.Object? {
      assert v.fields != map[] <==> |v.fields| > 0;
    }
  }

  lemma {:induction false} BoundRunIs(w: Words, row: Row)
    ensures HasBoundRun(w, row) <==>
      || NamesRun(w, At(row, "evidence_run_id"))
      || exists ev :: ev in ListedEvidence(w, row) && ev.Object? && NamesRun(w, At(ev.fields, "run_id"))
  {
    RunIs(w, Field(row, "evidence_run_id"));
    forall ev: Json | ev.Object?
      ensures SaysSomething(w, Field(ev.fields, "run_id")) <==> NamesRun(w, At(ev.fields, "run_id"))
    {
      RunIs(w, Field(ev.fields, "run_id"));
    }
    hide SaysSomething, NamesRun;
  }

  lemma {:induction false} ShowsIs(w: Words, row: Row)
    ensures Acceptable(w, row) <==> Shows(w, row)
  {
    BoundRunIs(w, row);
    EvidenceIs(w, row);
    if At(row, "witness").Text? {
      TextIs(w, row["witness"].s);
    }
    hide HasBoundRun, EvidenceOk, HasEvidence, NamesRun, ListedEvidence, StatesNull, ClaimsNone, GivesReason;
  }

  /** Row `i` is the last of its id, and completes it. */
  ghost predicate LastCompletes(w: Words, log: Log, id: string, i: nat) {
    LastOfId(log, id, i) && Completes(w, At(log[i], "status"))
  }

  lemma {:induction false} CompletedAt(w: Words, log: Log, id: string)
    ensures TerminalAt(w, log, id) <==> exists i: nat :: LastCompletes(w, log, id, i)
    ensures forall i: nat | LastCompletes(w, log, id, i) :: id in Latest(log) && Latest(log)[id] == log[i]
  {
    LatestExactly(log, id);
    hide LastOfId, Latest;
    if id in Latest(log) {
      var i: nat :| LastOfId(log, id, i);
      LastOfThere(log, id, i);
      assert Terminal(w, log[i]) <==> LastCompletes(w, log, id, i);
    }
  }

  lemma {:induction false} LastOfThere(log: Log, id: string, i: nat)
    ensures LastOfId(log, id, i) ==> i < |log|
  {
  }

  /** THE BOUNDARY, exactly: a diff passes when every row that is the last of its id and completes it shows one of the
      accepted forms, unless the id's last row before completed it already. */
  lemma {:induction false} BoundaryExactly(w: Words, before: Log, after: Log)
    ensures Accepts(w, before, after) <==>
      forall id: string, i: nat | LastCompletes(w, after, id, i) && !Was(w, before, id) :: Shows(w, after[i])
  {
    forall id: string
      ensures (TerminalAt(w, before, id) <==> Was(w, before, id)) && (TerminalAt(w, after, id) <==> Was(w, after, id))
      ensures forall i: nat | LastCompletes(w, after, id, i) :: id in Latest(after) && Latest(after)[id] == after[i]
    {
      CompletedAt(w, before, id);
      CompletedAt(w, after, id);
    }
    forall row: Row ensures Acceptable(w, row) <==> Shows(w, row) {
      ShowsIs(w, row);
    }
    hide LastCompletes, Acceptable, Shows, Latest;
  }

  /** The last row of the id completes it. */
  ghost predicate Was(w: Words, log: Log, id: string) {
    exists i: nat :: LastCompletes(w, log, id, i)
  }
}
