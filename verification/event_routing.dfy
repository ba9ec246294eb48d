/** A workflow event from its input object, or its lookup row, to the rows that it is about, and on to
    the handler that its status calls for; run without interference on the table in place. */
module EventRouting {
  import opened Records
  import opened Writes
  import opened IdpPostprocessor
  import opened Registry
  import opened Alone
  import opened WorkflowEvents
  import opened Handlers
  import opened IdpHandlers

  lemma RoutingGoes(T: Table, e: Event, at: Locator, version: Id)
    requires e.key.Some? && e.key.value in T.latest && T.latest[e.key.value] == version && version in T.objects
    requires T.objects[version].locator == Some(at) && at.upload in T.uploads && at.document in T.documents
    requires T.uploads[at.upload].run == Some(at.run) && T.uploads[at.upload].sourceVersion.Some?
    requires T.documents[at.document].run == Some(at.run)
    requires T.documents[at.document].currentUpload == Some(at.upload)
    requires (if at.stage == Screen then T.documents[at.document].screenInput
              else T.documents[at.document].fullInput) == Some(Ref(e.key.value, version))
    ensures var snap := T.uploads[at.upload];
      && Steps(T, ReadHead(e), T, Some(ReadUpload(e, at, version)))
      && Steps(T, ReadUpload(e, at, version), T, Some(ReadDocument(e, at, version, snap)))
      && Steps(T, ReadDocument(e, at, version, snap), T,
           Dispatch(e, Route(at.stage, at.upload, at.document, at.run, snap.sourceVersion.value), e.configured))
  {
  }

  /** `route_workflow`: the input object's metadata names the rows, and the document must pin exactly this
      version of it for the run and upload that it names. */
  method RouteWorkflow(r: RegistryTable, e: Event) returns (w: Option<Route>)
    requires e.key.Some? && (e.key.value.ScreenKey? || e.key.value.FullKey?)
    ensures w.Some? <==>
      && e.key.value in r.latest && r.latest[e.key.value] in r.objects
      && r.objects[r.latest[e.key.value]].locator.Some?
      && var at := r.objects[r.latest[e.key.value]].locator.value;
      && at.upload in r.uploads && at.document in r.documents
      && var U, D := r.uploads[at.upload], r.documents[at.document];
      && U.run == Some(at.run) && D.run == Some(at.run) && D.currentUpload == Some(at.upload)
      && (if at.stage == Screen then D.screenInput else D.fullInput) == Some(Ref(e.key.value, r.latest[e.key.value]))
      && U.sourceVersion.Some?
    ensures w.Some? ==>
      var at := r.objects[r.latest[e.key.value]].locator.value;
      w.value == Route(at.stage, at.upload, at.document, at.run, r.uploads[at.upload].sourceVersion.value)
    ensures w.Some? ==>
      Reaches(Steps, r.View(), ReadHead(e), r.View(), Dispatch(e, w.value, e.configured))
  {
    hide Steps, Reaches, Dispatch;
    ghost var T, t := r.View(), ReadHead(e);
    if e.key.value !in r.latest || r.latest[e.key.value] !in r.objects { return None; }
    var version := r.latest[e.key.value];
    if r.objects[version].locator.None? { return None; }
    var at := r.objects[version].locator.value;
    if at.upload !in r.uploads || at.document !in r.documents { return None; }
    var snap, D := r.uploads[at.upload], r.documents[at.document];
    if snap.run != Some(at.run) || D.run != Some(at.run) || D.currentUpload != Some(at.upload) { return None; }
    var pinned := if at.stage.Screen? then D.screenInput else D.fullInput;
    if pinned != Some(Ref(e.key.value, version)) || snap.sourceVersion.None? { return None; }
    RoutingGoes(T, e, at, version);
    Begins(Steps, T, t);
    Goes(Steps, T, t, T, t, T, Some(ReadUpload(e, at, version)));
    Goes(Steps, T, t, T, ReadUpload(e, at, version), T, Some(ReadDocument(e, at, version, snap)));
    w := Some(Route(at.stage, at.upload, at.document, at.run, snap.sourceVersion.value));
    Goes(Steps, T, t, T, ReadDocument(e, at, version, snap), T, Dispatch(e, w.value, e.configured));
  }

  lemma FindingGoes(T: Table, e: Event, k: LookupKey)
    requires k in T.lookups && k.upload in T.uploads && T.lookups[k].document in T.documents
    requires T.uploads[k.upload].run == Some(T.lookups[k].run) && T.uploads[k.upload].sourceVersion.Some?
    requires T.documents[T.lookups[k].document].run == Some(T.lookups[k].run)
    requires T.documents[T.lookups[k].document].currentUpload == Some(k.upload)
    ensures var found, snap := T.lookups[k], T.uploads[k.upload];
      && Steps(T, LookupUpload(e, k, found), T, Some(LookupDocument(e, k, found, snap)))
      && Steps(T, LookupDocument(e, k, found, snap), T,
           Dispatch(e, Route(k.stage, k.upload, found.document, found.run, snap.sourceVersion.value), true))
  {
  }

  /** `find_route_by_execution`: a failure without its input finds the rows by the execution's own row. */
  method FindRoute(r: RegistryTable, e: Event, k: LookupKey) returns (w: Option<Route>)
    requires k in r.lookups
    ensures w.Some? <==>
      && k.upload in r.uploads && r.lookups[k].document in r.documents
      && var U, D := r.uploads[k.upload], r.documents[r.lookups[k].document];
      && U.run == Some(r.lookups[k].run) && D.run == Some(r.lookups[k].run) && D.currentUpload == Some(k.upload)
      && U.sourceVersion.Some?
    ensures w.Some? ==>
      w.value == Route(k.stage, k.upload, r.lookups[k].document, r.lookups[k].run,
                       r.uploads[k.upload].sourceVersion.value)
    ensures w.Some? ==>
      Reaches(Steps, r.View(), LookupUpload(e, k, r.lookups[k]), r.View(), Dispatch(e, w.value, true))
  {
    hide Steps, Reaches, Dispatch;
    var found := r.lookups[k];
    ghost var T, t := r.View(), LookupUpload(e, k, found);
    if k.upload !in r.uploads || found.document !in r.documents { return None; }
    var snap, D := r.uploads[k.upload], r.documents[found.document];
    if snap.run != Some(found.run) || D.run != Some(found.run) || D.currentUpload != Some(k.upload)
       || snap.sourceVersion.None? { return None; }
    FindingGoes(T, e, k);
    Begins(Steps, T, t);
    Goes(Steps, T, t, T, t, T, Some(LookupDocument(e, k, found, snap)));
    w := Some(Route(k.stage, k.upload, found.document, found.run, snap.sourceVersion.value));
    Goes(Steps, T, t, T, LookupDocument(e, k, found, snap), T, Dispatch(e, w.value, true));
  }

  // ------------------------------------------------------------------- dispatching

  lemma DispatchIs(e: Event, w: Route, configured: bool)
    ensures !configured ==> Dispatch(e, w, configured) == Some(HoldRead(e, w, CONFIG_MISMATCH, false))
    ensures configured && e.status == Completed ==> Dispatch(e, w, configured) == Some(RecordSuccess(e, w))
    ensures configured && e.status == Started && e.execution.Some? ==> Dispatch(e, w, configured) == Some(Register(e, w))
    ensures configured && FailureOf(e) ==> Dispatch(e, w, configured) == Some(Decide(e, w))
  {
  }

  /** The rows that the routing found are each other's: the upload is current and both carry the run. */
  predicate RoutedRows(T: Table, w: Route) {
    && w.d in T.documents && w.u in T.uploads
    && T.documents[w.d].currentUpload == Some(w.u) && T.documents[w.d].run == Some(w.run)
    && T.uploads[w.u].run == Some(w.run)
  }

  /** `process_workflow_event` once the event is routed; false stands for a raise. */
  method HandleRouted(
    r: RegistryTable, e: Event, w: Route, configured: bool, screen: Work, full: Work, ghost t: Worker)
    returns (ok: bool)
    requires RoutedRows(r.View(), w) && screen.ScreenWork? && full.FullWork?
    requires Reaches(Steps, r.View(), t, r.View(), Dispatch(e, w, configured))
    modifies r
    ensures ok ==> Reaches(Steps, old(r.View()), t, r.View(), None)
    ensures !configured ==> r.lookups == old(r.lookups)
    ensures !configured && !Elsewhere(old(r.View()), w.d) ==> ok && HeldWith(r.View(), w, CONFIG_MISMATCH)
    ensures configured && e.status == Started && e.execution.Some? ==> ok && LookupKeyOf(e, w) in r.lookups
    ensures configured && e.status == Started && e.execution.Some? && w.stage == Screen ==>
      && w.d in r.documents && w.u in r.uploads
      && (old(r.documents)[w.d].status == Queued ==> r.documents[w.d].status == Screening)
      && (old(r.uploads)[w.u].status == Queued ==> r.uploads[w.u].status == Screening)
    ensures configured && e.status == Completed && Ready(old(r.View()), w) ==>
      var work := if w.stage == Screen then screen else full;
      ok && Worked(r.View(), w, work)
    ensures configured && FailureOf(e) && StageAllows(w.stage, old(r.documents)[w.d].status)
            && StageAllows(w.stage, old(r.uploads)[w.u].status) ==>
      ok && FailedBy(r.View(), e, w)
  {
    hide Steps, Reaches, Dispatch, Shows, Expected, Worked, Ready, FailedBy, HandleFailure, OtherLookupsKept,
         StillWatched, Recorded, Done;
    ghost var T := r.View();
    DispatchIs(e, w, configured);
    if !configured {
      var hold := HoldRead(e, w, CONFIG_MISMATCH, false);
      var o := TransitionHold(r, hold, T, t);
      return !o.Raised?;
    }
    match e.status {
      case Started =>
        if e.execution.None? { return false; }
        RecordWorkflowRunning(r, e, w);
        GoesOn(Steps, T, t, T, Register(e, w), r.View(), None);
        return true;
      case Completed =>
        var work := if w.stage.Screen? then screen else full;
        NeverRaises(work);
        var o := CompleteStage(r, e, w, work);
        if o.Raised? { return false; }
        GoesOn(Steps, T, t, T, RecordSuccess(e, w), r.View(), None);
        return true;
      case Ended(_) =>
        if e.execution.None? { return false; }
        ok := TransitionWorkflowFailure(r, e, w);
        if ok { GoesOn(Steps, T, t, T, Decide(e, w), r.View(), None); }
    }
  }

  /** `process_workflow_event`: an event that names its input object. Nothing happens unless it routes. */
  method ProcessWorkflowEvent(r: RegistryTable, e: Event, screen: Work, full: Work)
    returns (ok: bool, w: Option<Route>)
    requires e.key.Some? && (e.key.value.ScreenKey? || e.key.value.FullKey?) && screen.ScreenWork? && full.FullWork?
    modifies r
    ensures w.None? ==> !ok && r.View() == old(r.View())
    ensures w.Some? ==> RoutedRows(old(r.View()), w.value)
    ensures ok ==> Reaches(Steps, old(r.View()), ReadHead(e), r.View(), None)
    ensures w.Some? && !e.configured ==>
      r.lookups == old(r.lookups)
      && (!Elsewhere(old(r.View()), w.value.d) ==> ok && HeldWith(r.View(), w.value, CONFIG_MISMATCH))
    ensures w.Some? && e.configured && e.status == Completed && Ready(old(r.View()), w.value) ==>
      var work := if w.value.stage == Screen then screen else full;
      ok && Worked(r.View(), w.value, work)
    ensures w.Some? && e.configured && FailureOf(e) && StageAllows(w.value.stage, old(r.documents)[w.value.d].status)
            && StageAllows(w.value.stage, old(r.uploads)[w.value.u].status) ==>
      ok && FailedBy(r.View(), e, w.value)
  {
    hide Steps, Reaches, Dispatch, Worked, FailedBy, HeldWith, Elsewhere;
    w := RouteWorkflow(r, e);
    if w.None? { return false, w; }
    ok := HandleRouted(r, e, w.value, e.configured, screen, full, ReadHead(e));
  }

  lemma NeverRaises(work: Work)
    ensures !Expected(work).Raised?
  {
  }
}
