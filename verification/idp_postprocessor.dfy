/** The IDP postprocessor: one worker per delivered, replayed or watchdog-described workflow
    event, one table or object-store access per step. Raising is not a step. */
module IdpPostprocessor {
  import opened Records
  import opened Writes
  import opened Invariant
  import opened Preservation
  import opened Transactions

  datatype EventStatus = Started | Completed | Ended(kind: TerminalKind)

  /** A Step Functions event: which execution, its status, the input object it names if any, and
      whether its configuration version is the deployed one. A success may come without an ARN. */
  datatype Event = Event(
    execution: Option<nat>, status: EventStatus, key: Option<ObjectKey>, configured: bool)

  /** `source` is the pinned version as the routing read of the upload found it. */
  datatype Route = Route(stage: Stage, u: Id, d: Id, run: Id, source: Id)

  const CONFIG_MISMATCH := IdpHold(0)

  datatype Worker =
    | ReadHead(e: Event)
    | ReadUpload(e: Event, at: Locator, version: Id)
    | ReadDocument(e: Event, at: Locator, version: Id, snap: Upload)
    | LookupUpload(e: Event, k: LookupKey, found: Lookup)
    | LookupDocument(e: Event, k: LookupKey, found: Lookup, snap: Upload)
    | Register(e: Event, r: Route)
    | AdvanceDoc(e: Event, r: Route)
    | AdvanceUp(e: Event, r: Route)
    | Decide(e: Event, r: Route)
    | FailTxn(e: Event, r: Route)
    | FailRecheck(e: Event, r: Route)
    | RecordSuccess(e: Event, r: Route)
    | LeaseRead(e: Event, r: Route)
    | LeaseTry(e: Event, r: Route)
    | LeaseRefresh(e: Event, r: Route)
    | Select(e: Event, r: Route, token: Id)
    | Materialize(e: Event, r: Route, token: Id, pages: seq<nat>)
    | StageFull(e: Event, r: Route, token: Id, selected: Ref)
    | CommitSel(e: Event, r: Route, token: Id, selected: Ref, full: Ref)
    | CheckSel(e: Event, r: Route, full: Ref)
    | StoreData(e: Event, r: Route, token: Id)
    | CommitSucc(e: Event, r: Route, token: Id, data: Ref)
    | CheckSucc(e: Event, r: Route, data: Ref)
    | HoldRead(e: Event, r: Route, code: Code, clear: bool)
    | HoldTxn(e: Event, r: Route, code: Code, clear: bool)
    | HoldCheck(e: Event, r: Route, code: Code, clear: bool)
    | Clear(e: Event, r: Route)

  // ------------------------------------------------------------------ routing

  /** What an event does once it is routed; None for an event the code rejects there. */
  function Dispatch(e: Event, r: Route, configured: bool): Option<Worker> {
    if !configured then Some(HoldRead(e, r, CONFIG_MISMATCH, false))
    else match e.status
      case Started => if e.execution.Some? then Some(Register(e, r)) else None
      case Completed => Some(RecordSuccess(e, r))
      case Ended(_) => if e.execution.Some? then Some(Decide(e, r)) else None
  }

  /** The reference a document must carry for an event of this stage. */
  function Pinned(D: Document, stage: Stage): Option<Ref> {
    if stage.Screen? then D.screenInput else D.fullInput
  }

  function LookupKeyOf(e: Event, r: Route): LookupKey
    requires e.execution.Some?
  {
    LookupKey(r.u, r.stage, e.execution.value)
  }

  // ----------------------------------------------------------- failure events

  datatype FailureAction = Apply | Idempotent | Ignore

  function ActionFor(D: Document, stage: Stage, kind: TerminalKind, execution: nat): FailureAction {
    if D.status.Failed? && D.terminalKind == Some(kind) && D.failedExecution == Some(execution) then
      Idempotent
    else if StageAllows(stage, D.status) then Apply
    else Ignore
  }

  /** A lease is pointless: the document is terminal, archived, or past this stage. */
  predicate Finished(stage: Stage, status: Status) {
    Terminal(status) || status.Archived? || (stage.Screen? && status.Extracting?)
  }

  function AfterHold(e: Event, r: Route, clear: bool): Option<Worker> {
    if clear then Some(Clear(e, r)) else None
  }

  // -------------------------------------------------------------------- steps

  /** An event starts with its input object, or, for a failure without one, with its lookup row. */
  predicate Starts(T: Table, t: Worker) {
    || (t.ReadHead? && t.e.key.Some? && (t.e.key.value.ScreenKey? || t.e.key.value.FullKey?))
    || (t.LookupUpload? && t.e.key.None? && t.e.status.Ended? && t.e.execution == Some(t.k.execution)
        && t.k in T.lookups && t.found == T.lookups[t.k])
  }

  predicate RoutingSteps(T: Table, t: Worker, T': Table, n: Option<Worker>)
    requires t.ReadHead? || t.ReadUpload? || t.ReadDocument? || t.LookupUpload? || t.LookupDocument?
  {
    T' == T
    && match t
    case ReadHead(e) =>
      && e.key.Some? && e.key.value in T.latest && T.latest[e.key.value] in T.objects
      && var version := T.latest[e.key.value];
      && T.objects[version].locator.Some?
      && n == Some(ReadUpload(e, T.objects[version].locator.value, version))
    case ReadUpload(e, at, version) =>
      && at.upload in T.uploads
      && n == Some(ReadDocument(e, at, version, T.uploads[at.upload]))
    case ReadDocument(e, at, version, snap) =>
      && at.document in T.documents
      && var D := T.documents[at.document];
      && snap.run == Some(at.run) && D.run == Some(at.run) && D.currentUpload == Some(at.upload)
      && Pinned(D, at.stage).Some?
      && e.key == Some(Pinned(D, at.stage).value.key) && Pinned(D, at.stage).value.version == version
      && snap.sourceVersion.Some?
      && n == Dispatch(e, Route(at.stage, at.upload, at.document, at.run, snap.sourceVersion.value),
                       e.configured)
    case LookupUpload(e, k, found) =>
      && k.upload in T.uploads
      && n == Some(LookupDocument(e, k, found, T.uploads[k.upload]))
    case LookupDocument(e, k, found, snap) =>
      && found.document in T.documents
      && var D := T.documents[found.document];
      && snap.run == Some(found.run) && D.run == Some(found.run) && D.currentUpload == Some(k.upload)
      && snap.sourceVersion.Some?
      && n == Dispatch(e, Route(k.stage, k.upload, found.document, found.run, snap.sourceVersion.value),
                       true)
  }

  predicate RunningSteps(T: Table, t: Worker, T': Table, n: Option<Worker>)
    requires t.Register? || t.AdvanceDoc? || t.AdvanceUp?
  {
    match t
    case Register(e, r) =>
      && e.execution.Some?
      && T' == (if CanRegisterRunning(T, LookupKeyOf(e, r)) then
                  RegisterRunning(T, LookupKeyOf(e, r), r.run, r.d)
                else T)
      && n == Some(AdvanceDoc(e, r))
    case AdvanceDoc(e, r) =>
      r.d in T.documents && T' == AdvanceDocument(T, r.d, r.stage, r.run) && n == Some(AdvanceUp(e, r))
    case AdvanceUp(e, r) =>
      r.u in T.uploads && T' == AdvanceUpload(T, r.u, r.stage, r.run) && n == None
  }

  predicate FailureSteps(T: Table, t: Worker, T': Table, n: Option<Worker>)
    requires t.Decide? || t.FailTxn? || t.FailRecheck?
  {
    && t.e.execution.Some? && t.e.status.Ended?
    && match t
    case Decide(e, r) =>
      && T' == T && r.d in T.documents
      && n == Some(if ActionFor(T.documents[r.d], r.stage, e.status.kind, e.execution.value).Apply?
                   then FailTxn(e, r) else Clear(e, r))
    case FailTxn(e, r) =>
      if CanFailWorkflow(T, r.d, r.u, r.run, r.stage) then
        T' == FailWorkflow(T, r.d, r.u, r.run, r.stage, e.status.kind, e.execution.value) && n == None
      else
        T' == T && n == Some(FailRecheck(e, r))
    case FailRecheck(e, r) =>
      && T' == T && r.d in T.documents
      && !ActionFor(T.documents[r.d], r.stage, e.status.kind, e.execution.value).Apply?
      && n == Some(Clear(e, r))
  }

  predicate LeaseSteps(T: Table, t: Worker, T': Table, n: Option<Worker>)
    requires t.RecordSuccess? || t.LeaseRead? || t.LeaseTry? || t.LeaseRefresh?
  {
    match t
    case RecordSuccess(e, r) =>
      && T' == (if e.execution.Some? then EndLookup(T, LookupKeyOf(e, r), r.run, r.d, LookupSucceeded)
                else T)
      && n == Some(LeaseRead(e, r))
    case LeaseRead(e, r) =>
      && T' == T && r.d in T.documents
      && n == Some(if Finished(r.stage, T.documents[r.d].status) then Clear(e, r) else LeaseTry(e, r))
    case LeaseTry(e, r) =>
      if CanLeasePostprocess(T, r.d, r.u, r.run, r.stage) then
        T' == LeasePostprocess(T, r.d)
        && n == Some(if r.stage.Screen? then Select(e, r, T.next) else StoreData(e, r, T.next))
      else
        T' == T && n == Some(LeaseRefresh(e, r))
    case LeaseRefresh(e, r) =>
      && T' == T && r.d in T.documents && Finished(r.stage, T.documents[r.d].status)
      && n == Some(Clear(e, r))
  }

  predicate HoldsInstead(t: Worker, n: Option<Worker>) {
    (t.Select? || t.Materialize? || t.StageFull? || t.StoreData?)
    && n.Some? && n.value.HoldRead? && n.value == HoldRead(t.e, t.r, n.value.code, true)
  }

  /** The selector, the PDF writer and the extractor decide; their artifacts are versioned puts. */
  predicate StageSteps(T: Table, t: Worker, T': Table, n: Option<Worker>)
    requires t.Select? || t.Materialize? || t.StageFull? || t.CommitSel? || t.CheckSel?
             || t.StoreData? || t.CommitSucc? || t.CheckSucc?
  {
    || (T' == T && HoldsInstead(t, n))
    || match t
    case Select(e, r, token) =>
      T' == T && n.Some? && n.value.Materialize? && n.value == Materialize(e, r, token, n.value.pages)
    case Materialize(e, r, token, pages) =>
      && T' == PutObject(T, Object(SelectedKey(r.run), PagesOf(r.source, pages), None))
      && n == Some(StageFull(e, r, token, Ref(SelectedKey(r.run), T.next)))
    case StageFull(e, r, token, selected) =>
      && T' == PutObject(T, FullObject(r, selected))
      && n == Some(CommitSel(e, r, token, selected, Ref(FullKey(r.run, r.u), T.next)))
    case CommitSel(e, r, token, selected, full) =>
      if CanSelect(T, r.d, r.u, r.run, token) then
        T' == CommitSelected(T, r.d, r.u, r.run, token, selected, full) && n == Some(Clear(e, r))
      else
        T' == T && n == Some(CheckSel(e, r, full))
    case CheckSel(e, r, full) =>
      && T' == T && r.d in T.documents && T.documents[r.d].status.Extracting?
      && T.documents[r.d].fullInput.Some? && T.documents[r.d].fullInput.value.version == full.version
      && n == Some(Clear(e, r))
    case StoreData(e, r, token) =>
      && T' == PutObject(T, Object(DataPointsKey(r.run), Extracted(r.run), None))
      && n == Some(CommitSucc(e, r, token, Ref(DataPointsKey(r.run), T.next)))
    case CommitSucc(e, r, token, data) =>
      if CanSucceed(T, r.d, r.u, r.run, token) then
        T' == CommitSucceeded(T, r.d, r.u, r.run, token, data) && n == Some(Clear(e, r))
      else
        T' == T && n == Some(CheckSucc(e, r, data))
    case CheckSucc(e, r, data) =>
      && T' == T && r.d in T.documents && T.documents[r.d].status.Succeeded?
      && T.documents[r.d].dataPoints.Some? && T.documents[r.d].dataPoints.value.version == data.version
      && n == Some(Clear(e, r))
  }

  function FullObject(r: Route, selected: Ref): Object {
    Object(FullKey(r.run, r.u), CopyOf(selected.version), Some(Locator(Full, r.run, r.u, r.d)))
  }

  predicate HoldSteps(T: Table, t: Worker, T': Table, n: Option<Worker>)
    requires t.HoldRead? || t.HoldTxn? || t.HoldCheck? || t.Clear?
  {
    match t
    case HoldRead(e, r, code, clear) =>
      && T' == T && r.d in T.documents
      && var status := T.documents[r.d].status;
      && n == (if (Terminal(status) || status.Archived?) && !status.Hold? then AfterHold(e, r, clear)
               else Some(HoldTxn(e, r, code, clear)))
    case HoldTxn(e, r, code, clear) =>
      if CanHold(T, r.d, r.u, r.run) then
        T' == HoldDocument(T, r.d, r.u, code) && n == AfterHold(e, r, clear)
      else
        T' == T && n == Some(HoldCheck(e, r, code, clear))
    case HoldCheck(e, r, code, clear) =>
      && T' == T && r.d in T.documents && T.documents[r.d].status.Hold?
      && T.documents[r.d].failureCode == Some(code)
      && n == AfterHold(e, r, clear)
    case Clear(e, r) =>
      && T' == (if e.execution.Some? then ClearMarker(T, LookupKeyOf(e, r)) else T)
      && n == None
  }

  /** One access of worker `t`; None means that it finished. */
  predicate Steps(T: Table, t: Worker, T': Table, n: Option<Worker>) {
    if t.ReadHead? || t.ReadUpload? || t.ReadDocument? || t.LookupUpload? || t.LookupDocument? then
      RoutingSteps(T, t, T', n)
    else if t.Register? || t.AdvanceDoc? || t.AdvanceUp? then RunningSteps(T, t, T', n)
    else if t.Decide? || t.FailTxn? || t.FailRecheck? then FailureSteps(T, t, T', n)
    else if t.RecordSuccess? || t.LeaseRead? || t.LeaseTry? || t.LeaseRefresh? then LeaseSteps(T, t, T', n)
    else if t.HoldRead? || t.HoldTxn? || t.HoldCheck? || t.Clear? then HoldSteps(T, t, T', n)
    else StageSteps(T, t, T', n)
  }

  // ---------------------------------------------------- what a worker knows

  /** A route, once taken, stays true: the run's upload was queued and keeps its pinned version. */
  ghost predicate RouteOk(T: Table, r: Route) {
    Routed(T, r.u, r.d, r.run) && T.uploads[r.u].sourceVersion == Some(r.source)
  }

  ghost predicate SeenUpload(T: Table, u: Id, snap: Upload) {
    && u in T.uploads
    && (snap.run.Some? ==> T.uploads[u].run == snap.run && T.uploads[u].completed)
    && (snap.sourceVersion.Some? ==> T.uploads[u].sourceVersion == snap.sourceVersion)
    && (snap.sourceVersion.Some? <==> snap.run.Some?)
  }

  ghost predicate LocatedAt(T: Table, at: Locator, version: Id) {
    version in T.objects && T.objects[version].locator == Some(at)
  }

  ghost predicate DocumentLeft(T: Table, r: Route) {
    r.stage.Screen? && r.u in T.uploads && T.uploads[r.u].document in T.documents && Current(T, r.u) ==>
      Rank(T.documents[T.uploads[r.u].document].status) >= Rank(Screening)
  }

  ghost predicate WorkerOk(T: Table, t: Worker) {
    match t
    case ReadHead(_) => true
    case ReadUpload(e, at, version) =>
      LocatedAt(T, at, version) && e.key == Some(T.objects[version].key)
    case ReadDocument(e, at, version, snap) =>
      LocatedAt(T, at, version) && e.key == Some(T.objects[version].key) && SeenUpload(T, at.upload, snap)
    case LookupUpload(_, k, found) => Routed(T, k.upload, found.document, found.run)
    case LookupDocument(_, k, found, snap) =>
      Routed(T, k.upload, found.document, found.run) && SeenUpload(T, k.upload, snap)
    case AdvanceUp(_, r) => RouteOk(T, r) && DocumentLeft(T, r)
    case StageFull(_, r, _, selected) => RouteOk(T, r) && SelectedPut(T, r, selected)
    case CommitSel(_, r, _, selected, full) =>
      RouteOk(T, r) && FullStaged(T, r.u, r.run, r.source, selected, full)
    case CommitSucc(_, r, _, data) => RouteOk(T, r) && DataStored(T, r.run, data)
    case _ => RouteOk(T, t.r)
  }

  ghost predicate SelectedPut(T: Table, r: Route, selected: Ref) {
    && selected.key == SelectedKey(r.run) && Invariant.Stored(T, selected)
    && T.objects[selected.version].content.PagesOf?
    && T.objects[selected.version].content.version == r.source
  }

  lemma RouteStable(T: Table, T': Table, r: Route)
    requires RouteOk(T, r) && UploadOk(T, r.u) && UploadsEvolve(T, T')
    ensures RouteOk(T', r)
  {
    assert UploadEvolves(T, T', r.u);
  }

  lemma SeenStable(T: Table, T': Table, u: Id, snap: Upload)
    requires SeenUpload(T, u, snap) && UploadOk(T, u) && UploadsEvolve(T, T')
    ensures SeenUpload(T', u, snap)
  {
    assert UploadEvolves(T, T', u);
  }

  /** The upload a worker is about; a start that has not read one has none. */
  function Subject(t: Worker): Option<Id> {
    match t
    case ReadHead(_) => None
    case ReadUpload(_, _, _) => None
    case ReadDocument(_, at, _, _) => Some(at.upload)
    case LookupUpload(_, k, _) => Some(k.upload)
    case LookupDocument(_, k, _, _) => Some(k.upload)
    case _ => Some(t.r.u)
  }

  predicate Unrouted(t: Worker) {
    t.ReadHead? || t.ReadUpload? || t.ReadDocument? || t.LookupUpload? || t.LookupDocument?
  }

  lemma UnroutedStable(T: Table, T': Table, t: Worker)
    requires Unrouted(t) && WorkerOk(T, t) && UploadsEvolve(T, T') && Extends(T.objects, T'.objects)
    requires Subject(t).Some? && Subject(t).value in T.uploads ==> UploadOk(T, Subject(t).value)
    ensures WorkerOk(T', t)
  {
    match t
    case ReadHead(_) =>
    case ReadUpload(_, _, _) =>
    case ReadDocument(_, at, _, snap) => SeenStable(T, T', at.upload, snap);
    case LookupUpload(_, k, found) => LookupStable(T, T', k.upload, found.document, found.run);
    case LookupDocument(_, k, found, snap) =>
      LookupStable(T, T', k.upload, found.document, found.run);
      SeenStable(T, T', k.upload, snap);
  }

  lemma RoutedStable(T: Table, T': Table, t: Worker)
    requires !Unrouted(t) && WorkerOk(T, t) && UploadsEvolve(T, T') && Extends(T.objects, T'.objects)
    requires UploadOk(T, t.r.u)
    ensures WorkerOk(T', t)
  {
    RouteStable(T, T', t.r);
    assert UploadEvolves(T, T', t.r.u);
  }

  lemma WorkerSubject(T: Table, t: Worker)
    requires Inv(T) && WorkerOk(T, t)
    ensures Subject(t).Some? && Subject(t).value in T.uploads ==> UploadOk(T, Subject(t).value)
    ensures !Unrouted(t) ==> t.r.u in T.uploads && UploadOk(T, t.r.u)
  {
    hide Inv, UploadOk;
    if !Unrouted(t) { RouteKnown(T, t); }
    hide WorkerOk;
    if Subject(t).Some? && Subject(t).value in T.uploads { UploadHolds(T, Subject(t).value); }
  }

  /** Nobody else's step can invalidate what a worker knows. */
  lemma WorkerStable(T: Table, T': Table, t: Worker)
    requires Inv(T) && WorkerOk(T, t) && Evolves(T, T')
    ensures WorkerOk(T', t)
  {
    hide *;
    WorkerSubject(T, t);
    EvolvesParts(T, T');
    StoresObjects(T, T');
    if Unrouted(t) { UnroutedStable(T, T', t); } else { RoutedStable(T, T', t); }
  }

  lemma StoresObjects(T: Table, T': Table)
    requires StoresExtend(T, T')
    ensures Extends(T.objects, T'.objects)
  {
  }

  // ------------------------------------------------------------------ safety

  lemma StartOk(T: Table, t: Worker)
    requires Inv(T) && Starts(T, t)
    ensures WorkerOk(T, t)
  {
    if t.LookupUpload? { assert LookupOk(T, t.k); }
  }

  lemma RunningTable(T: Table, t: Worker, T': Table, n: Option<Worker>)
    requires t.Register? || t.AdvanceDoc? || t.AdvanceUp?
    requires Inv(T) && WorkerOk(T, t) && RunningSteps(T, t, T', n)
    ensures Inv(T') && Evolves(T, T')
  {
    hide Inv, Evolves, RegisterRunning, CanRegisterRunning, AdvanceDocument, AdvanceUpload, RunningSteps;
    RouteKnown(T, t);
    UploadHolds(T, t.r.u);
    RunningWrites(T, t, T', n);
    if t.Register? {
      if CanRegisterRunning(T, LookupKeyOf(t.e, t.r)) {
        hide UploadOk;
        RegisterRunningKeeps(T, LookupKeyOf(t.e, t.r), t.r.run, t.r.d);
      } else {
        DrawNothing(T);
      }
    } else if t.AdvanceDoc? {
      hide UploadOk;
      AdvanceDocumentKeeps(T, t.r.d, t.r.stage, t.r.run);
    } else {
      AdvanceUploadKeeps(T, t.r.u, t.r.stage, t.r.run);
    }
  }

  lemma RunningWrites(T: Table, t: Worker, T': Table, n: Option<Worker>)
    requires t.Register? || t.AdvanceDoc? || t.AdvanceUp?
    requires RunningSteps(T, t, T', n)
    ensures t.Register? ==>
      t.e.execution.Some?
      && T' == if CanRegisterRunning(T, LookupKeyOf(t.e, t.r)) then
                 RegisterRunning(T, LookupKeyOf(t.e, t.r), t.r.run, t.r.d)
               else T
    ensures t.AdvanceDoc? ==> t.r.d in T.documents && T' == AdvanceDocument(T, t.r.d, t.r.stage, t.r.run)
    ensures t.AdvanceUp? ==> t.r.u in T.uploads && T' == AdvanceUpload(T, t.r.u, t.r.stage, t.r.run)
  {
    hide RegisterRunning, CanRegisterRunning, AdvanceDocument, AdvanceUpload;
  }

  lemma RouteKnown(T: Table, t: Worker)
    requires !Unrouted(t) && WorkerOk(T, t)
    ensures RouteOk(T, t.r)
  {
  }

  lemma FailureTable(T: Table, t: Worker, T': Table, n: Option<Worker>)
    requires t.Decide? || t.FailTxn? || t.FailRecheck?
    requires Inv(T) && RouteOk(T, t.r) && FailureSteps(T, t, T', n)
    ensures Inv(T') && Evolves(T, T')
  {
    hide Inv, Evolves, FailWorkflow, CanFailWorkflow, FailureSteps;
    if T' == T { DrawNothing(T); return; }
    FailureWrites(T, t, T', n);
    FailWorkflowKeeps(T, t.r.d, t.r.u, t.r.run, t.r.stage, t.e.status.kind, t.e.execution.value);
  }

  lemma FailureWrites(T: Table, t: Worker, T': Table, n: Option<Worker>)
    requires t.Decide? || t.FailTxn? || t.FailRecheck?
    requires FailureSteps(T, t, T', n) && T' != T
    ensures t.FailTxn? && t.e.execution.Some? && t.e.status.Ended?
    ensures CanFailWorkflow(T, t.r.d, t.r.u, t.r.run, t.r.stage)
    ensures T' == FailWorkflow(T, t.r.d, t.r.u, t.r.run, t.r.stage, t.e.status.kind, t.e.execution.value)
  {
    hide FailWorkflow;
  }

  lemma LeaseTable(T: Table, t: Worker, T': Table, n: Option<Worker>)
    requires t.RecordSuccess? || t.LeaseRead? || t.LeaseTry? || t.LeaseRefresh?
    requires Inv(T) && RouteOk(T, t.r) && LeaseSteps(T, t, T', n)
    ensures Inv(T') && Evolves(T, T')
  {
    hide Inv, Evolves, EndLookup, LeasePostprocess, CanLeasePostprocess, LeaseSteps;
    if T' == T { DrawNothing(T); return; }
    LeaseWrites(T, t, T', n);
    if t.RecordSuccess? { EndLookupKeeps(T, LookupKeyOf(t.e, t.r), t.r.run, t.r.d, LookupSucceeded); }
    else { LeasePostprocessKeeps(T, t.r.d, t.r.u, t.r.run, t.r.stage); }
  }

  lemma LeaseWrites(T: Table, t: Worker, T': Table, n: Option<Worker>)
    requires t.RecordSuccess? || t.LeaseRead? || t.LeaseTry? || t.LeaseRefresh?
    requires LeaseSteps(T, t, T', n) && T' != T
    ensures t.RecordSuccess? || t.LeaseTry?
    ensures t.RecordSuccess? ==>
      t.e.execution.Some? && T' == EndLookup(T, LookupKeyOf(t.e, t.r), t.r.run, t.r.d, LookupSucceeded)
    ensures t.LeaseTry? ==>
      CanLeasePostprocess(T, t.r.d, t.r.u, t.r.run, t.r.stage) && T' == LeasePostprocess(T, t.r.d)
  {
    hide EndLookup, LeasePostprocess;
  }

  lemma HoldTable(T: Table, t: Worker, T': Table, n: Option<Worker>)
    requires t.HoldRead? || t.HoldTxn? || t.HoldCheck? || t.Clear?
    requires Inv(T) && RouteOk(T, t.r) && HoldSteps(T, t, T', n)
    ensures Inv(T') && Evolves(T, T')
  {
    hide Inv, Evolves, HoldDocument, ClearMarker, CanHold, HoldSteps;
    if T' == T { DrawNothing(T); return; }
    HoldWrites(T, t, T', n);
    if t.HoldTxn? { HoldDocumentKeeps(T, t.r.d, t.r.u, t.r.run, t.code); }
    else { ClearMarkerKeeps(T, LookupKeyOf(t.e, t.r)); }
  }

  lemma HoldWrites(T: Table, t: Worker, T': Table, n: Option<Worker>)
    requires t.HoldRead? || t.HoldTxn? || t.HoldCheck? || t.Clear?
    requires HoldSteps(T, t, T', n) && T' != T
    ensures t.HoldTxn? || t.Clear?
    ensures t.HoldTxn? ==> CanHold(T, t.r.d, t.r.u, t.r.run) && T' == HoldDocument(T, t.r.d, t.r.u, t.code)
    ensures t.Clear? ==> t.e.execution.Some? && T' == ClearMarker(T, LookupKeyOf(t.e, t.r))
  {
    hide HoldDocument, ClearMarker;
  }

  predicate Ending(t: Worker) {
    t.Decide? || t.FailTxn? || t.FailRecheck? || t.HoldRead? || t.HoldTxn? || t.HoldCheck? || t.Clear?
  }

  predicate Staging(t: Worker) {
    t.Select? || t.Materialize? || t.StageFull? || t.CommitSel? || t.CheckSel?
    || t.StoreData? || t.CommitSucc? || t.CheckSucc?
  }

  lemma StageTable(T: Table, t: Worker, T': Table, n: Option<Worker>)
    requires Staging(t) && Inv(T) && WorkerOk(T, t) && StageSteps(T, t, T', n)
    ensures Inv(T') && Evolves(T, T')
  {
    hide Inv, Evolves, CommitSelected, CanSelect, CommitSucceeded, CanSucceed, PutObject, StageSteps;
    if T' == T { DrawNothing(T); return; }
    if t.CommitSel? || t.CommitSucc? { CommitTable(T, t, T', n); }
    else {
      var o := StagePuts(T, t, T', n);
      ObjectKeeps(T, o);
    }
  }

  lemma StagePuts(T: Table, t: Worker, T': Table, n: Option<Worker>) returns (o: Object)
    requires Staging(t) && !t.CommitSel? && !t.CommitSucc? && StageSteps(T, t, T', n) && T' != T
    ensures T' == PutObject(T, o) && (o.locator.Some? ==> LocatorOk(o))
  {
    hide PutObject;
    o := if t.Materialize? then Object(SelectedKey(t.r.run), PagesOf(t.r.source, t.pages), None)
         else if t.StageFull? then FullObject(t.r, t.selected)
         else Object(DataPointsKey(t.r.run), Extracted(t.r.run), None);
  }

  lemma CommitTable(T: Table, t: Worker, T': Table, n: Option<Worker>)
    requires (t.CommitSel? || t.CommitSucc?) && Inv(T) && WorkerOk(T, t) && StageSteps(T, t, T', n) && T' != T
    ensures Inv(T') && Evolves(T, T')
  {
    hide Inv, Evolves, CommitSelected, CanSelect, CommitSucceeded, CanSucceed;
    if t.CommitSel? { CommitSelectedKeeps(T, t.r.d, t.r.u, t.r.run, t.token, t.selected, t.full); }
    else { CommitSucceededKeeps(T, t.r.d, t.r.u, t.r.run, t.token, t.data); }
  }

  lemma RoutingTable(T: Table, t: Worker, T': Table, n: Option<Worker>)
    requires Unrouted(t) && Inv(T) && RoutingSteps(T, t, T', n)
    ensures Inv(T') && Evolves(T, T')
  {
    DrawNothing(T);
  }

  /** Every step of the postprocessor is safe for the table, whatever the others are doing. */
  lemma StepTable(T: Table, t: Worker, T': Table, n: Option<Worker>)
    requires Inv(T) && WorkerOk(T, t) && Steps(T, t, T', n)
    ensures Inv(T') && Evolves(T, T')
  {
    hide Inv, Evolves, WorkerOk, RoutingSteps, RunningSteps, FailureSteps, LeaseSteps, StageSteps, HoldSteps;
    if !Unrouted(t) { RouteKnown(T, t); }
    if Unrouted(t) { RoutingTable(T, t, T', n); }
    else if t.Register? || t.AdvanceDoc? || t.AdvanceUp? { RunningTable(T, t, T', n); }
    else if t.Decide? || t.FailTxn? || t.FailRecheck? { FailureTable(T, t, T', n); }
    else if t.RecordSuccess? || t.LeaseRead? || t.LeaseTry? || t.LeaseRefresh? { LeaseTable(T, t, T', n); }
    else if t.HoldRead? || t.HoldTxn? || t.HoldCheck? || t.Clear? { HoldTable(T, t, T', n); }
    else { StageTable(T, t, T', n); }
  }

  // --- what the next program point knows

  /** The pin on the document vouches for the upload that the object's metadata names. */
  lemma RoutePinned(T: Table, at: Locator, version: Id, key: ObjectKey)
    requires LocatedAt(T, at, version) && T.objects[version].key == key && LocatorOk(T.objects[version])
    requires at.document in T.documents && DocumentOk(T, at.document)
    requires T.documents[at.document].currentUpload == Some(at.upload)
    requires T.documents[at.document].run == Some(at.run)
    requires at.upload in T.uploads && UploadOk(T, at.upload)
    requires Pinned(T.documents[at.document], at.stage).Some?
    requires Pinned(T.documents[at.document], at.stage).value.key == key
    ensures Routed(T, at.upload, at.document, at.run)
  {
  }

  lemma ReadDocumentWorker(T: Table, t: Worker, n: Option<Worker>)
    requires t.ReadDocument? && WorkerOk(T, t) && RoutingSteps(T, t, T, n) && n.Some?
    requires LocatorOk(T.objects[t.version])
    requires t.at.document in T.documents && DocumentOk(T, t.at.document)
    requires t.at.upload in T.uploads && UploadOk(T, t.at.upload)
    ensures WorkerOk(T, n.value)
  {
    RoutePinned(T, t.at, t.version, t.e.key.value);
    hide DocumentOk, UploadOk, LocatorOk, Routed;
  }

  lemma RoutingReady(T: Table, t: Worker, n: Option<Worker>)
    requires t.ReadDocument? && Inv(T) && WorkerOk(T, t) && RoutingSteps(T, t, T, n)
    ensures t.version in T.objects && T.objects[t.version].locator.Some? && LocatorOk(T.objects[t.version])
    ensures t.at.document in T.documents && DocumentOk(T, t.at.document)
    ensures t.at.upload in T.uploads && UploadOk(T, t.at.upload)
  {
  }

  lemma LatestKey(T: Table, key: ObjectKey)
    requires Inv(T) && key in T.latest
    ensures T.latest[key] in T.objects && T.objects[T.latest[key]].key == key
  {
  }

  lemma RoutingWorker(T: Table, t: Worker, n: Option<Worker>)
    requires Unrouted(t) && Inv(T) && WorkerOk(T, t) && RoutingSteps(T, t, T, n) && n.Some?
    ensures WorkerOk(T, n.value)
  {
    hide Inv;
    if t.ReadDocument? {
      RoutingReady(T, t, n);
      hide RoutingSteps, WorkerOk;
      ReadDocumentWorker(T, t, n);
    } else if t.ReadHead? {
      LatestKey(T, t.e.key.value);
    } else {
      if t.ReadUpload? && t.at.upload in T.uploads { UploadHolds(T, t.at.upload); }
      if t.LookupUpload? && t.k.upload in T.uploads { UploadHolds(T, t.k.upload); }
    }
  }

  lemma ScreenedOrLater(D: Document, u: Id, U: Upload, run: Id)
    requires Agrees(D, u, U) && U.run == Some(run) && Rank(U.status) >= Rank(Queued)
    ensures CanScreen(D.status, D.run, run) || Rank(D.status) > Rank(Screening)
  {
  }

  /** When the upload half of a RUNNING event comes, its document is past QUEUED. */
  lemma AdvancedDocument(T: Table, r: Route)
    requires r.d in T.documents && r.u in T.uploads && T.uploads[r.u].document == r.d
    requires Current(T, r.u) ==>
      Agrees(T.documents[r.d], r.u, T.uploads[r.u]) && T.uploads[r.u].run == Some(r.run)
      && Rank(T.uploads[r.u].status) >= Rank(Queued)
    ensures DocumentLeft(AdvanceDocument(T, r.d, r.stage, r.run), r)
  {
    if Current(T, r.u) {
      ScreenedOrLater(T.documents[r.d], r.u, T.uploads[r.u], r.run);
    }
  }

  lemma AdvancedRoute(T: Table, r: Route)
    requires r.d in T.documents && RouteOk(T, r)
    ensures RouteOk(AdvanceDocument(T, r.d, r.stage, r.run), r)
  {
  }

  lemma RunningWorker(T: Table, t: Worker, T': Table, n: Option<Worker>)
    requires t.Register? || t.AdvanceDoc? || t.AdvanceUp?
    requires WorkerOk(T, t) && RunningSteps(T, t, T', n) && n.Some?
    requires RunningKnows(T, t.r)
    ensures WorkerOk(T', n.value)
  {
    if t.AdvanceDoc? {
      AdvancedRoute(T, t.r);
      AdvancedDocument(T, t.r);
    }
  }

  lemma RunningReady(T: Table, t: Worker)
    requires t.Register? || t.AdvanceDoc? || t.AdvanceUp?
    requires Inv(T) && WorkerOk(T, t)
    ensures RunningKnows(T, t.r)
  {
    UploadHolds(T, t.r.u);
    DocumentHolds(T, t.r.d);
  }

  ghost predicate RunningKnows(T: Table, r: Route) {
    && r.d in T.documents && r.u in T.uploads && T.uploads[r.u].document == r.d
    && (Current(T, r.u) ==>
          Agrees(T.documents[r.d], r.u, T.uploads[r.u]) && T.uploads[r.u].run == Some(r.run)
          && Rank(T.uploads[r.u].status) >= Rank(Queued))
  }

  lemma StageWorker(T: Table, t: Worker, T': Table, n: Option<Worker>)
    requires Staging(t) && WorkerOk(T, t) && StageSteps(T, t, T', n) && n.Some?
    requires Extends(T.objects, T'.objects) && RouteOk(T', t.r)
    ensures WorkerOk(T', n.value)
  {
    hide CommitSelected, CommitSucceeded, CanSelect, CanSucceed, RouteOk;
  }

  lemma OtherWorker(T: Table, t: Worker, T': Table, n: Option<Worker>)
    requires !Unrouted(t) && !t.Register? && !t.AdvanceDoc? && !t.AdvanceUp? && !Staging(t)
    requires Steps(T, t, T', n) && n.Some? && RouteOk(T', t.r)
    ensures WorkerOk(T', n.value)
  {
  }

  lemma RouteKept(T: Table, t: Worker, T': Table)
    requires !Unrouted(t) && Inv(T) && WorkerOk(T, t) && Evolves(T, T')
    ensures RouteOk(T', t.r) && Extends(T.objects, T'.objects)
  {
    RouteStable(T, T', t.r);
  }

  lemma StepWorker(T: Table, t: Worker, T': Table, n: Option<Worker>)
    requires Inv(T) && WorkerOk(T, t) && Steps(T, t, T', n) && Evolves(T, T') && n.Some?
    ensures WorkerOk(T', n.value)
  {
    hide Inv, Evolves, WorkerOk, RoutingSteps, RunningSteps, FailureSteps, LeaseSteps, StageSteps, HoldSteps;
    if Unrouted(t) {
      RoutingStays(T, t, T', n);
      RoutingWorker(T, t, n);
    } else if t.Register? || t.AdvanceDoc? || t.AdvanceUp? {
      RunningReady(T, t);
      RunningWorker(T, t, T', n);
    } else {
      RouteKept(T, t, T');
      if Staging(t) { StageWorker(T, t, T', n); } else { OtherWorker(T, t, T', n); }
    }
  }

  lemma RoutingStays(T: Table, t: Worker, T': Table, n: Option<Worker>)
    requires Unrouted(t) && RoutingSteps(T, t, T', n)
    ensures T' == T
  {
  }
}
