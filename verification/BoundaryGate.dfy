/** The commit-boundary gate over two states of the board, and exactly when it agrees with the gated writer. */
module BoundaryGate {
  import opened Prelude
  import opened CompletionGate

  // ---------------------------------------------------------------- what a flipped row may show

  predicate Truthy(v: Json) {
    match v
    case Null => false
    case Bool(b) => b
    case Number(_, zero, _) => !zero
    case Text(s) => s != ""
    case List(items) => items != []
    case Object(fields) => fields != map[]
  }

  /** `str(v or "").strip()` is not empty. */
  predicate SaysSomething(w: Words, v: Json) {
    Truthy(v) && (v.Text? ==> w.strip(v.s) != "")
  }

  function Detail(w: Words, row: Row): Row {
    match Field(row, "detail")
    case Object(fields) => fields
    case Text(s) => if w.loads(s).Some? && w.loads(s).value.Object? then w.loads(s).value.fields else map[]
    case _ => map[]
  }

  predicate HasBoundRun(w: Words, row: Row) {
    || SaysSomething(w, Field(row, "evidence_run_id"))
    || var listed := Field(Detail(w, row), "evidence");
       listed.List? && exists ev :: ev in listed.items && ev.Object? && SaysSomething(w, Field(ev.fields, "run_id"))
  }

  predicate HasStatedNull(w: Words, row: Row) {
    Inked(w, Field(row, "evidence_none")) || (Field(row, "witness").Text? && StatesNull(w, Field(row, "witness").s))
  }

  predicate Acceptable(w: Words, row: Row) {
    HasBoundRun(w, row) || HasStatedNull(w, row) || EvidenceOk(w, row)
  }

  // ---------------------------------------------------------------- the gate

  /** The ids of a board in the order a dict filled from it lists them. */
  function IdOrder(log: Log): (ids: seq<string>)
    ensures NoDuplicates(ids) && forall id :: id in ids <==> id in Latest(log)
  {
    if log == [] then [] else
      var ids, last := IdOrder(log[..|log| - 1]), IdOf(log[|log| - 1]);
      if last.Some? && last.value !in ids then ids + [last.value] else ids
  }

  lemma {:induction false} IdOrderSnoc(log: Log, row: Row)
    ensures IdOrder(log + [row]) == if IdOf(row).Some? && IdOf(row).value !in IdOrder(log)
        then IdOrder(log) + [IdOf(row).value] else IdOrder(log)
  {
    assert (log + [row])[..|log + [row]| - 1] == log;
  }

  /** The ids are listed in the order their first rows stand on the board. */
  lemma {:induction false} IdsInOrder(log: Log, i: nat, j: nat) returns (n: nat)
    requires i < j < |IdOrder(log)|
    ensures n < |log| && IdOf(log[n]) == Some(IdOrder(log)[i])
    ensures forall m | 0 <= m <= n :: IdOf(log[m]) != Some(IdOrder(log)[j])
  {
    hide IdOf, Latest;
    var front, ids := log[..|log| - 1], IdOrder(log[..|log| - 1]);
    if j < |ids| {
      n := IdsInOrder(front, i, j);
    } else {
      IdsListed(front);
      n := IdAt(front, i);
    }
  }

  lemma {:induction false} IdAt(log: Log, i: nat) returns (n: nat)
    requires i < |IdOrder(log)|
    ensures n < |log| && IdOf(log[n]) == Some(IdOrder(log)[i])
  {
    if i < |IdOrder(log[..|log| - 1])| {
      n := IdAt(log[..|log| - 1], i);
    } else {
      n := |log| - 1;
    }
  }

  lemma {:induction false} IdsListed(log: Log)
    ensures forall m | 0 <= m < |log| && IdOf(log[m]).Some? :: IdOf(log[m]).value in IdOrder(log)
  {
    if log != [] {
      IdsListed(log[..|log| - 1]);
    }
  }

  method RowsFromLines(log: Log) returns (latest: map<string, Row>, order: seq<string>)
    ensures latest == Latest(log) && order == IdOrder(log)
  {
    latest, order := map[], [];
    for n := 0 to |log|
      invariant latest == Latest(log[..n]) && order == IdOrder(log[..n])
    {
      LatestSnoc(log[..n], log[n]);
      IdOrderSnoc(log[..n], log[n]);
      assert log[..n + 1] == log[..n] + [log[n]];
      var id := IdOf(log[n]);
      if id.Some? {
        if id.value !in latest {
          order := order + [id.value];
        }
        latest := latest[id.value := log[n]];
      }
    }
    assert log[..|log|] == log;
  }

  /** The last rows of those ids that are terminal now and were not before. */
  function FlippedOf(w: Words, before: Log, after: Log, ids: seq<string>): seq<Row> {
    if ids == [] then [] else
      var flipped, id := FlippedOf(w, before, after, ids[..|ids| - 1]), ids[|ids| - 1];
      if Flips(w, before, after, id) then flipped + [Latest(after)[id]] else flipped
  }

  lemma {:induction false} FlippedStep(w: Words, before: Log, after: Log, ids: seq<string>, n: nat)
    requires n < |ids|
    ensures FlippedOf(w, before, after, ids[..n + 1])
         == FlippedOf(w, before, after, ids[..n])
            + if Flips(w, before, after, ids[n]) then [Latest(after)[ids[n]]] else []
  {
    assert ids[..n + 1][..n] == ids[..n];
    assert FlippedOf(w, before, after, ids[..n]) + [] == FlippedOf(w, before, after, ids[..n]);
  }

  lemma {:induction false} FlippedMembers(w: Words, before: Log, after: Log, ids: seq<string>, row: Row)
    ensures row in FlippedOf(w, before, after, ids)
        <==> exists id :: id in ids && Flips(w, before, after, id) && Latest(after)[id] == row
  {
    if ids != [] {
      var front, last := ids[..|ids| - 1], ids[|ids| - 1];
      LastSplit(ids);
      FlippedMembers(w, before, after, front, row);
      if x :| x in front && Flips(w, before, after, x) && Latest(after)[x] == row {
        assert x in ids;
      }
    }
  }

  method RowsFlipped(w: Words, before: Log, after: Log) returns (flipped: seq<Row>)
    ensures flipped == FlippedOf(w, before, after, IdOrder(after))
  {
    var was, _ := RowsFromLines(before);
    var now, order := RowsFromLines(after);
    flipped := [];
    for n := 0 to |order|
      invariant flipped == FlippedOf(w, before, after, order[..n])
    {
      var id := order[n];
      assert id in now by { assert id in order; }
      FlippedStep(w, before, after, order, n);
      assert flipped + [] == flipped;
      if Terminal(w, now[id]) && !(id in was && Terminal(w, was[id])) {
        flipped := flipped + [now[id]];
      }
    }
    assert order[..|order|] == order;
  }

  method CheckFlippedRows(w: Words, flipped: seq<Row>) returns (refused: seq<Row>)
    ensures refused == Filter((row: Row) => !Acceptable(w, row), flipped)
  {
    refused := [];
    for n := 0 to |flipped|
      invariant refused == Filter((row: Row) => !Acceptable(w, row), flipped[..n])
    {
      assert flipped[..n + 1][..n] == flipped[..n];
      if !(HasBoundRun(w, flipped[n]) || HasStatedNull(w, flipped[n])) {
        if !EvidenceOk(w, flipped[n]) {
          refused := refused + [flipped[n]];
        }
      }
    }
    assert flipped[..|flipped|] == flipped;
  }

  ghost predicate Accepts(w: Words, before: Log, after: Log) {
    forall id | Flips(w, before, after, id) :: Acceptable(w, Latest(after)[id])
  }

  /** The gate lets a diff through exactly when every flipped id's last row shows one of the accepted forms. */
  method CheckDiff(w: Words, before: Log, after: Log) returns (ok: bool)
    ensures ok <==> Accepts(w, before, after)
  {
    var flipped := RowsFlipped(w, before, after);
    var refused := CheckFlippedRows(w, flipped);
    ok := refused == [];
    AcceptsIff(w, before, after);
    if !ok {
      assert refused[0] in refused;
    } else {
      forall row | row in flipped ensures Acceptable(w, row) {
        assert row !in refused;
      }
    }
  }

  lemma {:induction false} AcceptsIff(w: Words, before: Log, after: Log)
    ensures Accepts(w, before, after)
        <==> forall row | row in FlippedOf(w, before, after, IdOrder(after)) :: Acceptable(w, row)
  {
    forall row | row in FlippedOf(w, before, after, IdOrder(after))
      ensures exists id :: Flips(w, before, after, id) && Latest(after)[id] == row
    {
      FlippedMembers(w, before, after, IdOrder(after), row);
    }
    forall id | Flips(w, before, after, id) ensures Latest(after)[id] in FlippedOf(w, before, after, IdOrder(after)) {
      FlippedMembers(w, before, after, IdOrder(after), Latest(after)[id]);
      assert id in IdOrder(after);
    }
  }

  // ---------------------------------------------------------------- the gated writer and this gate

  /** The call re-appends a row that became terminal since `start`, and takes its accepted evidence away. */
  ghost predicate Drops(w: Words, start: Log, log: Log, call: Call) {
    var verdict := Answer(w, log, call);
    && verdict.Appended? && !TerminalAt(w, start, call.id) && TerminalAt(w, log, call.id)
    && Acceptable(w, Latest(log)[call.id])
    && Terminal(w, verdict.row) && !Acceptable(w, verdict.row)
  }

  lemma {:induction false} StepAccepts(w: Words, start: Log, log: Log, call: Call)
    requires Straight(call) && Accepts(w, start, log)
    ensures Accepts(w, start, After(w, log, call)) <==> !Drops(w, start, log, call)
  {
    var verdict := Answer(w, log, call);
    if verdict.Appended? {
      StraightKeepsId(w, log, call);
      LatestSnoc(log, verdict.row);
      if Flips(w, log, After(w, log, call), call.id) {
        FlipIsProven(w, log, call, call.id);
      }
      OthersUnchanged(w, start, log, call);
    }
  }

  lemma {:induction false} OthersUnchanged(w: Words, start: Log, log: Log, call: Call)
    requires Straight(call) && Accepts(w, start, log) && Answer(w, log, call).Appended?
    ensures Accepts(w, start, After(w, log, call))
       <==> (Flips(w, start, After(w, log, call), call.id) ==> Acceptable(w, Latest(After(w, log, call))[call.id]))
  {
    var after := After(w, log, call);
    StraightKeepsId(w, log, call);
    LatestSnoc(log, Answer(w, log, call).row);
    if Flips(w, start, after, call.id) ==> Acceptable(w, Latest(after)[call.id]) {
      forall id | Flips(w, start, after, id) ensures Acceptable(w, Latest(after)[id]) {
        if id != call.id {
          assert Flips(w, start, log, id);
        }
      }
    }
  }

  ghost predicate AcceptsAt(w: Words, start: Log, calls: seq<Call>, k: nat)
    requires k <= |calls|
  {
    Accepts(w, start, Run(w, start, calls[..k]))
  }

  ghost predicate DropsAt(w: Words, start: Log, calls: seq<Call>, k: nat)
    requires k < |calls|
  {
    Drops(w, start, Run(w, start, calls[..k]), calls[k])
  }

  lemma {:induction false} NextStep(w: Words, start: Log, calls: seq<Call>, k: nat)
    requires k < |calls| && Straight(calls[k]) && AcceptsAt(w, start, calls, k)
    ensures AcceptsAt(w, start, calls, k + 1) <==> !DropsAt(w, start, calls, k)
  {
    assert calls[..k + 1][..k] == calls[..k];
    StepAccepts(w, start, Run(w, start, calls[..k]), calls[k]);
  }

  lemma {:induction false} AlongRun(ok: nat -> bool, bad: nat -> bool, n: nat)
    requires ok(0) && forall k: nat | k < n && ok(k) :: ok(k + 1) <==> !bad(k)
    ensures (forall k: nat | k <= n :: ok(k)) <==> (forall k: nat | k < n :: !bad(k))
  {
    if n > 0 {
      AlongRun(ok, bad, n - 1);
      if ok(n - 1) {
        assert ok(n - 1 + 1) <==> !bad(n - 1);
      }
    }
  }

  /** The two gates agree along a whole run exactly when no call takes accepted evidence off a row it or an earlier
      call completed: the gated writer does not look at terminal rows again. */
  lemma {:induction false} GatesAgree(w: Words, start: Log, calls: seq<Call>)
    requires forall k | 0 <= k < |calls| :: Straight(calls[k])
    ensures (forall k: nat | k <= |calls| :: AcceptsAt(w, start, calls, k))
        <==> (forall k: nat | k < |calls| :: !DropsAt(w, start, calls, k))
  {
    var ok := (k: nat) => k <= |calls| && AcceptsAt(w, start, calls, k);
    var bad := (k: nat) => k < |calls| && DropsAt(w, start, calls, k);
    assert ok(0) by {
      assert Run(w, start, calls[..0]) == start;
    }
    forall k: nat | k < |calls| && ok(k) ensures ok(k + 1) <==> !bad(k) {
      NextStep(w, start, calls, k);
    }
    hide *;
    AlongRun(ok, bad, |calls|);
    assert forall k: nat | k <= |calls| :: ok(k) <==> AcceptsAt(w, start, calls, k);
    assert forall k: nat | k < |calls| :: bad(k) <==> DropsAt(w, start, calls, k);
  }

  const BINDING_FIELDS: set<string> := {"evidence", "evidence_artifact", "witness", "evidence_none", "evidence_run_id",
      "detail"}

  lemma {:induction false} SameForms(w: Words, a: Row, b: Row)
    requires SameOn(a, b, BINDING_FIELDS)
    ensures Acceptable(w, a) <==> Acceptable(w, b)
  {
    assert Field(a, "evidence") == Field(b, "evidence");
    assert Field(a, "evidence_artifact") == Field(b, "evidence_artifact");
    assert Field(a, "witness") == Field(b, "witness") && Field(a, "evidence_none") == Field(b, "evidence_none");
    assert Field(a, "evidence_run_id") == Field(b, "evidence_run_id") && Field(a, "detail") == Field(b, "detail");
  }

  /** What a caller can check: a call that leaves the evidence fields alone takes nothing away. */
  lemma {:induction false} UntouchedKeeps(w: Words, start: Log, log: Log, call: Call)
    requires call.sets.Keys !! BINDING_FIELDS
    ensures !Drops(w, start, log, call)
  {
    var verdict := Answer(w, log, call);
    if verdict.Appended? {
      var row := Latest(log)[call.id];
      assert SameOn(row, verdict.row, BINDING_FIELDS);
      SameForms(w, row, verdict.row);
    }
  }

  /** So a run that sets evidence only on rows still open passes the commit boundary at every point. */
  lemma {:induction false} OpenEvidencePasses(w: Words, start: Log, calls: seq<Call>)
    requires forall k | 0 <= k < |calls| :: Straight(calls[k])
    requires forall k | 0 <= k < |calls| ::
      calls[k].sets.Keys !! BINDING_FIELDS || !TerminalAt(w, Run(w, start, calls[..k]), calls[k].id)
    ensures Accepts(w, start, Run(w, start, calls))
  {
    forall k: nat | k < |calls| ensures !DropsAt(w, start, calls, k) {
      if TerminalAt(w, Run(w, start, calls[..k]), calls[k].id) {
        UntouchedKeeps(w, start, Run(w, start, calls[..k]), calls[k]);
      }
    }
    GatesAgree(w, start, calls);
    assert AcceptsAt(w, start, calls, |calls|);
    assert calls[..|calls|] == calls;
  }
}
