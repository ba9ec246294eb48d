/** Workflow events may come twice, late or out of order: what handling them again does. */
module WorkflowEvents {
  import opened Records
  import opened Writes
  import opened Invariant
  import opened Preservation
  import opened System
  import opened History
  import opened Events
  import opened Claims
  import Idp = IdpPostprocessor

  predicate FailureOf(e: Idp.Event) {
    e.status.Ended? && e.execution.Some?
  }

  /** `transition_workflow_failure` when nobody interferes; None if it raises. */
  function HandleFailure(T: Table, e: Idp.Event, r: Idp.Route): Option<Table>
    requires FailureOf(e)
  {
    if r.d !in T.documents then None
    else if Idp.ActionFor(T.documents[r.d], r.stage, e.status.kind, e.execution.value).Apply? then
      if CanFailWorkflow(T, r.d, r.u, r.run, r.stage) then
        Some(FailWorkflow(T, r.d, r.u, r.run, r.stage, e.status.kind, e.execution.value))
      else None
    else Some(ClearMarker(T, Idp.LookupKeyOf(e, r)))
  }

  /** It is what the handler's own steps do. */
  lemma HandledBySteps(T: Table, e: Idp.Event, r: Idp.Route, T': Table)
    requires FailureOf(e)
    ensures HandleFailure(T, e, r) == Some(T') <==>
      exists n :: Idp.Steps(T, Idp.Decide(e, r), T, Some(n)) && Idp.Steps(T, n, T', None)
  {
    if HandleFailure(T, e, r) == Some(T') {
      var n := if Idp.ActionFor(T.documents[r.d], r.stage, e.status.kind, e.execution.value).Apply?
               then Idp.FailTxn(e, r) else Idp.Clear(e, r);
      assert Idp.Steps(T, Idp.Decide(e, r), T, Some(n)) && Idp.Steps(T, n, T', None);
    }
  }

  lemma ClearTwice(T: Table, k: LookupKey)
    ensures ClearMarker(ClearMarker(T, k), k) == ClearMarker(T, k)
  {
  }

  /** Clearing a marker touches that marker alone. */
  ghost predicate OnlyMarker(T: Table, T': Table, k: LookupKey) {
    && T' == T.(lookups := T'.lookups) && T'.lookups.Keys == T.lookups.Keys
    && forall x :: x in T.lookups ==>
         T'.lookups[x] == if x == k then T.lookups[x].(marker := None) else T.lookups[x]
  }

  lemma ClearOnly(T: Table, k: LookupKey)
    ensures OnlyMarker(T, ClearMarker(T, k), k)
  {
    var T' := ClearMarker(T, k);
    if k in T.lookups {
      assert T'.lookups == T.lookups[k := T.lookups[k].(marker := None)];
    }
  }

  lemma ClearEnded(T: Table, k: LookupKey)
    requires k in T.lookups && T.lookups[k].marker.None?
    ensures ClearMarker(T, k) == T
  {
    assert T.lookups[k := T.lookups[k].(marker := None)] == T.lookups;
  }

  /** What a failure leaves on the document and in the lookup row. */
  lemma FailedRows(T: Table, e: Idp.Event, r: Idp.Route)
    requires FailureOf(e) && CanFailWorkflow(T, r.d, r.u, r.run, r.stage)
    ensures var T' := FailWorkflow(T, r.d, r.u, r.run, r.stage, e.status.kind, e.execution.value);
      && r.d in T'.documents && T'.documents[r.d].status.Failed?
      && T'.documents[r.d].terminalKind == Some(e.status.kind)
      && T'.documents[r.d].failedExecution == e.execution
      && Idp.LookupKeyOf(e, r) in T'.lookups && T'.lookups[Idp.LookupKeyOf(e, r)].marker.None?
  {
  }

  /** Replay: handling the same failure twice leaves exactly the table that handling it once leaves,
      row for row and signal for signal. */
  lemma FailureTwice(T: Table, e: Idp.Event, r: Idp.Route, T': Table)
    requires FailureOf(e) && HandleFailure(T, e, r) == Some(T')
    ensures HandleFailure(T', e, r) == Some(T')
  {
    hide FailWorkflow, CanFailWorkflow;
    if Idp.ActionFor(T.documents[r.d], r.stage, e.status.kind, e.execution.value).Apply? {
      FailedRows(T, e, r);
      ClearEnded(T', Idp.LookupKeyOf(e, r));
    } else {
      ClearTwice(T, Idp.LookupKeyOf(e, r));
    }
  }

  /** A failure never disturbs a document that is past its stage: a screening failure leaves
      EXTRACTING and later alone, a full-extraction failure the terminal class, and either leaves
      AWAITING_UPLOAD and VALIDATING alone. Only its own watchdog marker goes. */
  lemma FailurePastStage(T: Table, e: Idp.Event, r: Idp.Route, T': Table)
    requires FailureOf(e) && HandleFailure(T, e, r) == Some(T')
    requires r.stage.Screen? ==> Rank(T.documents[r.d].status) >= Rank(Extracting)
                                 || Rank(T.documents[r.d].status) <= Rank(Validating)
    requires r.stage.Full? ==> !T.documents[r.d].status.Extracting?
    ensures OnlyMarker(T, T', Idp.LookupKeyOf(e, r))
  {
    hide FailWorkflow, ClearMarker, OnlyMarker, CanFailWorkflow;
    ClearOnly(T, Idp.LookupKeyOf(e, r));
  }

  /** The first failing execution wins: whatever failure is handled next, by any execution at any
      stage, the document keeps the kind and execution of the first. */
  lemma FirstFailureStays(T: Table, e: Idp.Event, r: Idp.Route, e2: Idp.Event, r2: Idp.Route, T': Table, T2: Table)
    requires FailureOf(e) && FailureOf(e2) && r2.d == r.d
    requires CanFailWorkflow(T, r.d, r.u, r.run, r.stage)
    requires T' == FailWorkflow(T, r.d, r.u, r.run, r.stage, e.status.kind, e.execution.value)
    requires HandleFailure(T', e2, r2) == Some(T2)
    ensures T2.documents == T'.documents && T2.uploads == T'.uploads
    ensures T2.documents[r.d].failedExecution == e.execution
    ensures T2.documents[r.d].terminalKind == Some(e.status.kind)
  {
    FailedRows(T, e, r);
    hide FailWorkflow;
    FailurePastStage(T', e2, r2, T2);
  }

  // ---------------------------------------------------------------- over whole runs

  /** The step applies a workflow failure to upload `u`. */
  predicate FailsUpload(s: State, l: Label, u: Id) {
    IdpAt(s, l)
    && var t := s.threads[l.tid].idp;
    t.FailTxn? && t.r.u == u && CanFailWorkflow(s.table, t.r.d, u, t.r.run, t.r.stage)
  }

  /** A failure of a document that waits at the event's stage is always applied or tried; of any other, or
      of one that this execution has failed already, never. */
  lemma DecideTries(s: State, l: Label, s': State)
    requires Does(s, l, s') && IdpAt(s, l) && s.threads[l.tid].idp.Decide?
    ensures var t := s.threads[l.tid].idp;
      && t.r.d in s.table.documents && l.idpNext.Some?
      && var status := s.table.documents[t.r.d].status;
      && (l.idpNext == Some(Idp.FailTxn(t.e, t.r)) <==>
            if t.r.stage == Screen then status == Queued || status == Screening else status == Extracting)
      && (l.idpNext != Some(Idp.FailTxn(t.e, t.r)) ==> l.idpNext == Some(Idp.Clear(t.e, t.r)))
  {
  }

  lemma FailingStep(s: State, l: Label, s': State, u: Id)
    requires Does(s, l, s') && FailsUpload(s, l, u)
    ensures u in s.table.uploads && Rank(s.table.uploads[u].status) < 5
    ensures u in s'.table.uploads && Rank(s'.table.uploads[u].status) == 5
  {
  }

  /** Under every interleaving at most one workflow failure is ever applied to an upload. */
  lemma FailedOnce(b: seq<State>, ls: seq<Label>, i: nat, j: nat, u: Id)
    requires Run(b, ls) && i < j < |ls| && |b| == |ls| + 1
    requires FailsUpload(b[i], ls[i], u)
    ensures !FailsUpload(b[j], ls[j], u)
  {
    hide Run, Does, Evolves, FailsUpload;
    RunDoes(b, ls, i);
    RunDoes(b, ls, j);
    RunEvolves(b, ls, i + 1, j);
    FailingStep(b[i], ls[i], b[i + 1], u);
    UploadAdvances(b[i + 1].table, b[j].table, u);
    if FailsUpload(b[j], ls[j], u) { FailingStep(b[j], ls[j], b[j + 1], u); }
  }

  /** A lookup row that has seen its terminal event never returns to RUNNING, and never regains a
      watchdog marker it has lost. */
  lemma TerminalLookupStays(b: seq<State>, ls: seq<Label>, i: nat, j: nat, k: LookupKey)
    requires Run(b, ls) && i <= j <= |ls| && |b| == |ls| + 1
    requires k in b[i].table.lookups && !b[i].table.lookups[k].status.LookupRunning?
    ensures k in b[j].table.lookups && !b[j].table.lookups[k].status.LookupRunning?
    ensures b[i].table.lookups[k].marker.None? ==> b[j].table.lookups[k].marker.None?
  {
    hide Run, Evolves;
    RunEvolves(b, ls, i, j);
    EvolvesParts(b[i].table, b[j].table);
    assert LookupEvolves(b[i].table, b[j].table, k);
  }

  lemma FailingRecords(s: State, l: Label, s': State, u: Id)
    requires Does(s, l, s') && FailsUpload(s, l, u) && Good(s)
    ensures var t := s.threads[l.tid].idp;
      && FailureOf(t.e) && t.r.d in s'.table.documents
      && var D := s'.table.documents[t.r.d];
      && D.status.Failed? && D.currentUpload == Some(u)
      && D.terminalKind == Some(t.e.status.kind) && D.failedExecution == t.e.execution
  {
    hide Good;
  }

  /** The same upload is still current: the document has had no other in between. */
  lemma SameUploadSameBirths(T: Table, T': Table, d: Id)
    requires Inv(T) && Inv(T') && Evolves(T, T') && d in T.documents && T.documents[d].currentUpload.Some?
    requires d in T'.documents && T'.documents[d].currentUpload == T.documents[d].currentUpload
    ensures DocumentEvolves(T, T', d) && T'.log.born[d] == T.log.born[d]
  {
    DocumentAdvances(T, T', d);
    BornAreUploads(T, d);
    BornAreUploads(T', d);
    DocumentHolds(T, d);
    DocumentHolds(T', d);
    hide Inv, Evolves;
    var D, D' := T.documents[d], T'.documents[d];
    assert T'.log.born[d][D.lastArchive] == T'.log.born[d][D'.lastArchive];
  }

  /** While its upload stays current, a terminal document keeps what it recorded of the execution that
      failed it, whatever events come; and a document that still is FAILED keeps its failure code. */
  lemma FailureStays(b: seq<State>, ls: seq<Label>, i: nat, j: nat, d: Id)
    requires Run(b, ls) && i <= j <= |ls| && |b| == |ls| + 1
    requires d in b[i].table.documents && Terminal(b[i].table.documents[d].status)
    requires d in b[j].table.documents
    requires b[j].table.documents[d].currentUpload == b[i].table.documents[d].currentUpload
    ensures SameFailure(b[i].table.documents[d], b[j].table.documents[d])
    ensures b[j].table.documents[d].status.Failed? ==>
      b[i].table.documents[d].status.Failed?
      && b[j].table.documents[d].failureCode == b[i].table.documents[d].failureCode
  {
    hide Run, Inv, Evolves;
    RunInv(b, ls, i);
    RunInv(b, ls, j);
    RunEvolves(b, ls, i, j);
    DocumentHolds(b[i].table, d);
    DocumentHolds(b[j].table, d);
    SameUploadSameBirths(b[i].table, b[j].table, d);
    UploadAdvances(b[i].table, b[j].table, b[i].table.documents[d].currentUpload.value);
  }

  /** The first failing execution wins, under every interleaving: from the step that applies a workflow
      failure on, the document names its execution and its kind as long as the upload is current. */
  lemma FirstFailureWins(b: seq<State>, ls: seq<Label>, i: nat, j: nat, u: Id)
    requires Run(b, ls) && i < j <= |ls| && |b| == |ls| + 1 && FailsUpload(b[i], ls[i], u)
    requires var d := b[i].threads[ls[i].tid].idp.r.d;
      d in b[j].table.documents && b[j].table.documents[d].currentUpload == Some(u)
    ensures var t := b[i].threads[ls[i].tid].idp;
      && FailureOf(t.e)
      && b[j].table.documents[t.r.d].failedExecution == t.e.execution
      && b[j].table.documents[t.r.d].terminalKind == Some(t.e.status.kind)
  {
    hide Run, Good, Does;
    RunDoes(b, ls, i);
    RunGood(b, ls, i);
    FailingRecords(b[i], ls[i], b[i + 1], u);
    FailureStays(b, ls, i + 1, j, b[i].threads[ls[i].tid].idp.r.d);
  }
}
