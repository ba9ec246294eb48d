/** The postprocessor's handlers of a successful workflow, run without interference on the table in
    place: screening with the real selector, full extraction, the hold transition, and the marker. */
module IdpHandlers {
  import opened Records
  import opened Writes
  import opened Invariant
  import opened Preservation
  import opened IdpPostprocessor
  import opened Registry
  import opened Alone
  import Selector

  /** What the screening workflow delivered. */
  datatype Output = Unreadable(code: Code) | Sections(sections: seq<Selector.Section>)

  /** What there is to do after a stage's workflow. `unfit` and `refused` are codes with which writing
      the selected pages, or assembling the data points, may give up. */
  datatype Work =
    | ScreenWork(output: Output, loan: string, limit: nat, unfit: Option<Code>)
    | FullWork(refused: Option<Code>)

  datatype Outcome = Skipped | Advanced | Held(code: Code) | Ignored | Raised

  function ReasonCode(reason: Selector.Reason): Code {
    match reason
    case NotFound => IdpHold(1)
    case PageLimitExceeded => IdpHold(2)
    case PageIdsInvalid => IdpHold(3)
    case LoanIdMismatch => IdpHold(4)
    case Ambiguous => IdpHold(5)
  }

  /** The pages that screening settles on, or the code to hold with. */
  datatype Choice = Pages(pages: seq<nat>) | HoldWith(code: Code)

  function ChoiceOf(work: Work): Choice
    requires work.ScreenWork?
  {
    match work.output
    case Unreadable(code) => HoldWith(code)
    case Sections(sections) =>
      match Selector.Select(sections, work.loan, work.limit)
      case Held(reason) => HoldWith(ReasonCode(reason))
      case Selected(_, pages) => Pages(pages)
  }

  /** What a stage comes to if nothing stands in its way. */
  function Expected(work: Work): Outcome {
    match work
    case ScreenWork(_, _, _, unfit) =>
      (match ChoiceOf(work)
       case HoldWith(code) => Held(code)
       case Pages(_) => if unfit.Some? then Held(unfit.value) else Advanced)
    case FullWork(refused) => if refused.Some? then Held(refused.value) else Advanced
  }

  /** Both rows are where this stage finds them, and its lease is free. */
  predicate Ready(T: Table, r: Route) {
    CanLeasePostprocess(T, r.d, r.u, r.run, r.stage) && CanFailWorkflow(T, r.d, r.u, r.run, r.stage)
  }

  predicate Done(T: Table, r: Route) {
    r.d in T.documents && Finished(r.stage, T.documents[r.d].status)
  }

  /** Both rows name the selected pages of the pinned version, and the full input is their copy. */
  predicate Extracts(T: Table, r: Route, pages: seq<nat>) {
    && r.d in T.documents && r.u in T.uploads
    && var D, U := T.documents[r.d], T.uploads[r.u];
    && D.status.Extracting? && U.status.Extracting? && D.lease.None?
    && D.selected.Some? && D.fullInput.Some? && U.selected == D.selected && U.fullInput == D.fullInput
    && Find(T.objects, D.selected.value.version) == Some(Object(SelectedKey(r.run), PagesOf(r.source, pages), None))
    && D.fullInput.value.key == FullKey(r.run, r.u) && D.failureCode.None? && U.failureCode.None?
    && Find(T.objects, D.fullInput.value.version)
       == Some(Object(FullKey(r.run, r.u), CopyOf(D.selected.value.version), Some(Locator(Full, r.run, r.u, r.d))))
  }

  /** Both rows name the data points of this run. */
  predicate Succeeds(T: Table, r: Route) {
    && r.d in T.documents && r.u in T.uploads
    && var D, U := T.documents[r.d], T.uploads[r.u];
    && D.status.Succeeded? && U.status.Succeeded? && D.lease.None?
    && D.dataPoints.Some? && U.dataPoints == D.dataPoints
    && Find(T.objects, D.dataPoints.value.version) == Some(Object(DataPointsKey(r.run), Extracted(r.run), None))
  }

  predicate HeldWith(T: Table, r: Route, code: Code) {
    r.d in T.documents && T.documents[r.d].status.Hold? && T.documents[r.d].failureCode == Some(code)
  }

  /** The rows say what the outcome says. */
  predicate Shows(T: Table, r: Route, work: Work, o: Outcome) {
    match o
    case Advanced =>
      (match work
       case ScreenWork(_, _, _, _) => ChoiceOf(work).Pages? && Extracts(T, r, ChoiceOf(work).pages)
       case FullWork(_) => Succeeds(T, r))
    case Held(code) => HeldWith(T, r, code)
    case _ => true
  }

  /** Nothing but this document, this upload, stored objects and stream records has changed. */
  ghost predicate OnlyTheirs(T: Table, T': Table, r: Route) {
    && T'.documents.Keys == T.documents.Keys && T'.uploads.Keys == T.uploads.Keys
    && (forall x :: x in T.documents && x != r.d ==> T'.documents[x] == T.documents[x])
    && (forall x :: x in T.uploads && x != r.u ==> T'.uploads[x] == T.uploads[x])
    && T'.lookups == T.lookups && T'.archives == T.archives && T'.idempotency == T.idempotency
    && T'.heads == T.heads && T'.instances == T.instances
  }

  /** What work that nobody disturbs leaves. In screening the selector's pages go on, unless they cannot be
      written, and everything else is held under its own code; after extraction the data points are there. */
  predicate Worked(T: Table, r: Route, work: Work) {
    match work
    case ScreenWork(Unreadable(code), _, _, _) => HeldWith(T, r, code)
    case ScreenWork(Sections(sections), loan, limit, unfit) =>
      (match Selector.Select(sections, loan, limit)
       case Held(NotFound) => HeldWith(T, r, IdpHold(1))
       case Held(PageLimitExceeded) => HeldWith(T, r, IdpHold(2))
       case Held(PageIdsInvalid) => HeldWith(T, r, IdpHold(3))
       case Held(LoanIdMismatch) => HeldWith(T, r, IdpHold(4))
       case Held(Ambiguous) => HeldWith(T, r, IdpHold(5))
       case Selected(_, pages) => if unfit.Some? then HeldWith(T, r, unfit.value) else Extracts(T, r, pages))
    case FullWork(refused) => if refused.Some? then HeldWith(T, r, refused.value) else Succeeds(T, r)
  }

  lemma WorkedIs(T: Table, r: Route, work: Work)
    requires Shows(T, r, work, Expected(work))
    ensures Worked(T, r, work)
  {
    hide Extracts, HeldWith, Succeeds, Selector.Select;
  }

  // ----------------------------------------------------- steps taken one by one

  lemma LeaseReadSteps(T: Table, e: Event, r: Route)
    requires r.d in T.documents
    ensures Steps(T, LeaseRead(e, r), T, Some(if Done(T, r) then Clear(e, r) else LeaseTry(e, r)))
  {
  }

  lemma LeaseTrySteps(T: Table, e: Event, r: Route)
    requires CanLeasePostprocess(T, r.d, r.u, r.run, r.stage)
    ensures Steps(T, LeaseTry(e, r), LeasePostprocess(T, r.d),
                  Some(if r.stage.Screen? then Select(e, r, T.next) else StoreData(e, r, T.next)))
  {
  }

  lemma HoldsSteps(T: Table, t: Worker, code: Code)
    requires t.Select? || t.Materialize? || t.StageFull? || t.StoreData?
    ensures Steps(T, t, T, Some(HoldRead(t.e, t.r, code, true)))
  {
  }

  lemma SelectSteps(T: Table, t: Worker, pages: seq<nat>)
    requires t.Select?
    ensures Steps(T, t, T, Some(Materialize(t.e, t.r, t.token, pages)))
  {
  }

  lemma MaterializeSteps(T: Table, t: Worker)
    requires t.Materialize?
    ensures Steps(T, t, PutObject(T, Object(SelectedKey(t.r.run), PagesOf(t.r.source, t.pages), None)),
                  Some(StageFull(t.e, t.r, t.token, Ref(SelectedKey(t.r.run), T.next))))
  {
  }

  lemma StageFullSteps(T: Table, t: Worker)
    requires t.StageFull?
    ensures Steps(T, t, PutObject(T, FullObject(t.r, t.selected)),
                  Some(CommitSel(t.e, t.r, t.token, t.selected, Ref(FullKey(t.r.run, t.r.u), T.next))))
  {
  }

  lemma CommitSelSteps(T: Table, t: Worker)
    requires t.CommitSel? && CanSelect(T, t.r.d, t.r.u, t.r.run, t.token)
    ensures Steps(T, t, CommitSelected(T, t.r.d, t.r.u, t.r.run, t.token, t.selected, t.full),
                  Some(Clear(t.e, t.r)))
  {
  }

  lemma StoreDataSteps(T: Table, t: Worker)
    requires t.StoreData?
    ensures Steps(T, t, PutObject(T, Object(DataPointsKey(t.r.run), Extracted(t.r.run), None)),
                  Some(CommitSucc(t.e, t.r, t.token, Ref(DataPointsKey(t.r.run), T.next))))
  {
  }

  lemma CommitSuccSteps(T: Table, t: Worker)
    requires t.CommitSucc? && CanSucceed(T, t.r.d, t.r.u, t.r.run, t.token)
    ensures Steps(T, t, CommitSucceeded(T, t.r.d, t.r.u, t.r.run, t.token, t.data), Some(Clear(t.e, t.r)))
  {
  }

  /** A terminal document other than one on HOLD keeps its status. */
  predicate Elsewhere(T: Table, d: Id) {
    d in T.documents && (Terminal(T.documents[d].status) || T.documents[d].status.Archived?)
    && !T.documents[d].status.Hold?
  }

  lemma HoldReadSteps(T: Table, t: Worker)
    requires t.HoldRead? && t.r.d in T.documents
    ensures Steps(T, t, T, if Elsewhere(T, t.r.d) then AfterHold(t.e, t.r, t.clear)
                           else Some(HoldTxn(t.e, t.r, t.code, t.clear)))
  {
  }

  lemma HoldTxnSteps(T: Table, t: Worker)
    requires t.HoldTxn?
    ensures CanHold(T, t.r.d, t.r.u, t.r.run) ==>
      Steps(T, t, HoldDocument(T, t.r.d, t.r.u, t.code), AfterHold(t.e, t.r, t.clear))
    ensures !CanHold(T, t.r.d, t.r.u, t.r.run) ==> Steps(T, t, T, Some(HoldCheck(t.e, t.r, t.code, t.clear)))
  {
  }

  lemma HoldCheckSteps(T: Table, t: Worker)
    requires t.HoldCheck? && HeldWith(T, t.r, t.code)
    ensures Steps(T, t, T, AfterHold(t.e, t.r, t.clear))
  {
  }

  // ------------------------------------------------------ what the writes leave

  lemma LeaseLeaves(T: Table, r: Route)
    requires CanLeasePostprocess(T, r.d, r.u, r.run, r.stage)
    ensures var T' := LeasePostprocess(T, r.d);
      && OnlyTheirs(T, T', r) && !Elsewhere(T', r.d) && !Done(T, r)
      && (Ready(T, r) ==> CanHold(T', r.d, r.u, r.run))
      && (r.stage.Screen? ==> (CanSelect(T', r.d, r.u, r.run, T.next) <==> Ready(T, r)))
      && (r.stage.Full? ==> (CanSucceed(T', r.d, r.u, r.run, T.next) <==> Ready(T, r)))
  {
  }

  lemma PutLeaves(T: Table, o: Object, r: Route, token: Id)
    ensures var T' := PutObject(T, o);
      && OnlyTheirs(T, T', r) && Find(T'.objects, T.next) == Some(o) && T'.next == T.next + 1
      && (CanSelect(T', r.d, r.u, r.run, token) <==> CanSelect(T, r.d, r.u, r.run, token))
      && (CanSucceed(T', r.d, r.u, r.run, token) <==> CanSucceed(T, r.d, r.u, r.run, token))
      && (CanHold(T', r.d, r.u, r.run) <==> CanHold(T, r.d, r.u, r.run))
      && (Elsewhere(T', r.d) <==> Elsewhere(T, r.d))
      && forall v :: v in T.objects && v != T.next ==> Find(T'.objects, v) == Find(T.objects, v)
  {
  }

  lemma SelectedLeaves(T: Table, r: Route, token: Id, selected: Ref, full: Ref, pages: seq<nat>)
    requires CanSelect(T, r.d, r.u, r.run, token)
    requires Find(T.objects, selected.version) == Some(Object(SelectedKey(r.run), PagesOf(r.source, pages), None))
    requires Find(T.objects, full.version) == Some(FullObject(r, selected)) && full.key == FullKey(r.run, r.u)
    ensures var T' := CommitSelected(T, r.d, r.u, r.run, token, selected, full);
      OnlyTheirs(T, T', r) && Extracts(T', r, pages)
  {
  }

  lemma SucceededLeaves(T: Table, r: Route, token: Id, data: Ref)
    requires CanSucceed(T, r.d, r.u, r.run, token)
    requires Find(T.objects, data.version) == Some(Object(DataPointsKey(r.run), Extracted(r.run), None))
    ensures var T' := CommitSucceeded(T, r.d, r.u, r.run, token, data);
      OnlyTheirs(T, T', r) && Succeeds(T', r)
  {
  }

  lemma HoldLeaves(T: Table, r: Route, code: Code)
    requires CanHold(T, r.d, r.u, r.run)
    ensures var T' := HoldDocument(T, r.d, r.u, code); OnlyTheirs(T, T', r) && HeldWith(T', r, code)
  {
  }

  lemma Theirs(T0: Table, T1: Table, T2: Table, r: Route)
    requires OnlyTheirs(T0, T1, r) && OnlyTheirs(T1, T2, r)
    ensures OnlyTheirs(T0, T2, r)
  {
  }

  lemma NothingChanged(T: Table, r: Route)
    ensures OnlyTheirs(T, T, r)
  {
  }

  // ------------------------------------------------------------------- handlers

  /** `transition_status`, always towards HOLD: it leaves a document in another terminal status alone,
      holds any other current one, and takes a lost race for its own only if the same hold is there. */
  method TransitionHold(r: RegistryTable, t: Worker, ghost T0: Table, ghost t0: Worker) returns (o: Outcome)
    requires t.HoldRead? && Reaches(Steps, T0, t0, r.View(), Some(t))
    modifies r
    ensures o.Ignored? || o == Held(t.code) || o.Raised?
    ensures o.Ignored? <==> Elsewhere(old(r.View()), t.r.d)
    ensures o.Ignored? <==>
      t.r.d in old(r.documents) && old(r.documents)[t.r.d].status in {Succeeded, Rejected, Failed, Archived}
    ensures o.Held? <==> !Elsewhere(old(r.View()), t.r.d)
                         && (CanHold(old(r.View()), t.r.d, t.r.u, t.r.run) || HeldWith(old(r.View()), t.r, t.code))
    ensures o.Held? ==> HeldWith(r.View(), t.r, t.code)
    ensures OnlyTheirs(old(r.View()), r.View(), t.r)
    ensures !o.Held? ==> r.View() == old(r.View())
    ensures !o.Raised? ==> Reaches(Steps, T0, t0, r.View(), AfterHold(t.e, t.r, t.clear))
  {
    hide Steps, Reaches, CanHold, HoldDocument, OnlyTheirs;
    ghost var T := r.View();
    NothingChanged(T, t.r);
    if t.r.d !in r.documents {
      Absent(T, t.r);
      return Raised;
    }
    HoldReadSteps(T, t);
    var status := r.documents[t.r.d].status;
    if (Terminal(status) || status.Archived?) && !status.Hold? {
      Goes(Steps, T0, t0, T, t, T, AfterHold(t.e, t.r, t.clear));
      return Ignored;
    }
    ghost var txn := HoldTxn(t.e, t.r, t.code, t.clear);
    Goes(Steps, T0, t0, T, t, T, Some(txn));
    HoldTxnSteps(T, txn);
    var ok := r.TryHold(t.r.d, t.r.u, t.r.run, t.code);
    if ok {
      Goes(Steps, T0, t0, T, txn, r.View(), AfterHold(t.e, t.r, t.clear));
      HoldLeaves(T, t.r, t.code);
      return Held(t.code);
    }
    ghost var check := HoldCheck(t.e, t.r, t.code, t.clear);
    Goes(Steps, T0, t0, T, txn, T, Some(check));
    if r.documents[t.r.d].status.Hold? && r.documents[t.r.d].failureCode == Some(t.code) {
      HoldCheckSteps(T, check);
      Goes(Steps, T0, t0, T, check, T, AfterHold(t.e, t.r, t.clear));
      return Held(t.code);
    }
    return Raised;
  }

  lemma Absent(T: Table, r: Route)
    requires r.d !in T.documents
    ensures !CanHold(T, r.d, r.u, r.run)
  {
  }

  /** `process_screen` once it has the lease. */
  method Screening(
    r: RegistryTable, t: Worker, work: Work, ghost T0: Table, ghost t0: Worker) returns (o: Outcome)
    requires t.Select? && work.ScreenWork? && Reaches(Steps, T0, t0, r.View(), Some(t))
    requires !Elsewhere(r.View(), t.r.d)
    modifies r
    ensures !o.Skipped? && !o.Ignored?
    ensures (CanSelect(old(r.View()), t.r.d, t.r.u, t.r.run, t.token)
             && CanHold(old(r.View()), t.r.d, t.r.u, t.r.run)) ==> o == Expected(work)
    ensures Shows(r.View(), t.r, work, o)
    ensures OnlyTheirs(old(r.View()), r.View(), t.r)
    ensures !o.Raised? ==> Reaches(Steps, T0, t0, r.View(), Some(Clear(t.e, t.r)))
  {
    hide Steps, Reaches, CanHold, CanSelect, OnlyTheirs, Elsewhere, CommitSelected, PutObject, Extracts, HeldWith,
         ChoiceOf, FullObject;
    ghost var T := r.View();
    var choice := ChoiceOf(work);
    if choice.HoldWith? {
      HoldsSteps(T, t, choice.code);
      var hold := HoldRead(t.e, t.r, choice.code, true);
      Goes(Steps, T0, t0, T, t, T, Some(hold));
      o := TransitionHold(r, hold, T0, t0);
      return;
    }
    SelectSteps(T, t, choice.pages);
    ghost var materialize := Materialize(t.e, t.r, t.token, choice.pages);
    Goes(Steps, T0, t0, T, t, T, Some(materialize));
    if work.unfit.Some? {
      HoldsSteps(T, materialize, work.unfit.value);
      var hold := HoldRead(t.e, t.r, work.unfit.value, true);
      Goes(Steps, T0, t0, T, materialize, T, Some(hold));
      o := TransitionHold(r, hold, T0, t0);
      return;
    }
    MaterializeSteps(T, materialize);
    var o1 := Object(SelectedKey(t.r.run), PagesOf(t.r.source, choice.pages), None);
    PutLeaves(T, o1, t.r, t.token);
    var selected := r.WriteObject(o1);
    ghost var T1, stage := r.View(), StageFull(t.e, t.r, t.token, selected);
    Goes(Steps, T0, t0, T, materialize, T1, Some(stage));
    StageFullSteps(T1, stage);
    PutLeaves(T1, FullObject(t.r, selected), t.r, t.token);
    var full := r.WriteObject(FullObject(t.r, selected));
    ghost var T2, commit := r.View(), CommitSel(t.e, t.r, t.token, selected, full);
    FullKeyOf(t.r, selected);
    Goes(Steps, T0, t0, T1, stage, T2, Some(commit));
    Theirs(T, T1, T2, t.r);
    var ok := r.TryCommitSelected(t.r.d, t.r.u, t.r.run, t.token, selected, full);
    if !ok { return Raised; }
    CommitSelSteps(T2, commit);
    Goes(Steps, T0, t0, T2, commit, r.View(), Some(Clear(t.e, t.r)));
    SelectedLeaves(T2, t.r, t.token, selected, full, choice.pages);
    Theirs(T, T2, r.View(), t.r);
    return Advanced;
  }

  lemma FullKeyOf(r: Route, selected: Ref)
    ensures FullObject(r, selected).key == FullKey(r.run, r.u)
  {
  }

  /** `process_full` once it has the lease. */
  method Extracting(
    r: RegistryTable, t: Worker, work: Work, ghost T0: Table, ghost t0: Worker) returns (o: Outcome)
    requires t.StoreData? && work.FullWork? && Reaches(Steps, T0, t0, r.View(), Some(t))
    requires !Elsewhere(r.View(), t.r.d)
    modifies r
    ensures !o.Skipped? && !o.Ignored?
    ensures (CanSucceed(old(r.View()), t.r.d, t.r.u, t.r.run, t.token)
             && CanHold(old(r.View()), t.r.d, t.r.u, t.r.run)) ==> o == Expected(work)
    ensures Shows(r.View(), t.r, work, o)
    ensures OnlyTheirs(old(r.View()), r.View(), t.r)
    ensures !o.Raised? ==> Reaches(Steps, T0, t0, r.View(), Some(Clear(t.e, t.r)))
  {
    hide Steps, Reaches, CanHold, CanSucceed, OnlyTheirs, Elsewhere, CommitSucceeded, PutObject, Succeeds, HeldWith;
    ghost var T := r.View();
    if work.refused.Some? {
      HoldsSteps(T, t, work.refused.value);
      var hold := HoldRead(t.e, t.r, work.refused.value, true);
      Goes(Steps, T0, t0, T, t, T, Some(hold));
      o := TransitionHold(r, hold, T0, t0);
      return;
    }
    StoreDataSteps(T, t);
    var points := Object(DataPointsKey(t.r.run), Extracted(t.r.run), None);
    PutLeaves(T, points, t.r, t.token);
    var data := r.WriteObject(points);
    ghost var T1, commit := r.View(), CommitSucc(t.e, t.r, t.token, data);
    Goes(Steps, T0, t0, T, t, T1, Some(commit));
    var ok := r.TryCommitSucceeded(t.r.d, t.r.u, t.r.run, t.token, data);
    if !ok { return Raised; }
    CommitSuccSteps(T1, commit);
    Goes(Steps, T0, t0, T1, commit, r.View(), Some(Clear(t.e, t.r)));
    SucceededLeaves(T1, t.r, t.token, data);
    Theirs(T, T1, r.View(), t.r);
    return Advanced;
  }

  /** `process_screen` and `process_full`. */
  method Process(
    r: RegistryTable, e: Event, rt: Route, work: Work, ghost T0: Table, ghost t0: Worker) returns (o: Outcome)
    requires work.ScreenWork? <==> rt.stage.Screen?
    requires Reaches(Steps, T0, t0, r.View(), Some(LeaseRead(e, rt)))
    modifies r
    ensures !o.Ignored?
    ensures o.Skipped? <==> Done(old(r.View()), rt)
    ensures o.Skipped? ==> r.View() == old(r.View())
    ensures o.Skipped? <==>
      && rt.d in old(r.documents)
      && var status := old(r.documents)[rt.d].status;
      status in {Succeeded, Hold, Rejected, Failed, Archived} || (rt.stage == Screen && status.Extracting?)
    ensures Ready(old(r.View()), rt) ==> o == Expected(work) && Worked(r.View(), rt, work)
    ensures !Done(old(r.View()), rt) && !CanLeasePostprocess(old(r.View()), rt.d, rt.u, rt.run, rt.stage) ==>
      o.Raised? && r.View() == old(r.View())
    ensures Shows(r.View(), rt, work, o)
    ensures OnlyTheirs(old(r.View()), r.View(), rt)
    ensures !o.Raised? ==> Reaches(Steps, T0, t0, r.View(), Some(Clear(e, rt)))
  {
    hide Steps, Reaches, CanHold, CanSelect, CanSucceed, CanLeasePostprocess, LeasePostprocess, Ready, OnlyTheirs,
         Elsewhere, Shows, Expected;
    ghost var T := r.View();
    NothingChanged(T, rt);
    NothingShown(T, rt, work);
    DoneIs(T, rt);
    if rt.d !in r.documents {
      NoLease(T, rt);
      return Raised;
    }
    LeaseReadSteps(T, e, rt);
    if Finished(rt.stage, r.documents[rt.d].status) {
      NoLease(T, rt);
      Goes(Steps, T0, t0, T, LeaseRead(e, rt), T, Some(Clear(e, rt)));
      return Skipped;
    }
    Goes(Steps, T0, t0, T, LeaseRead(e, rt), T, Some(LeaseTry(e, rt)));
    var token := r.TryPostprocessLease(rt.d, rt.u, rt.run, rt.stage);
    if token.None? {
      NoLease(T, rt);
      return Raised;
    }
    LeaseTrySteps(T, e, rt);
    LeaseLeaves(T, rt);
    ghost var T1 := r.View();
    if rt.stage.Screen? {
      var t := Select(e, rt, token.value);
      Goes(Steps, T0, t0, T, LeaseTry(e, rt), T1, Some(t));
      o := Screening(r, t, work, T0, t0);
    } else {
      var t := StoreData(e, rt, token.value);
      Goes(Steps, T0, t0, T, LeaseTry(e, rt), T1, Some(t));
      o := Extracting(r, t, work, T0, t0);
    }
    Theirs(T, T1, r.View(), rt);
    if o == Expected(work) { WorkedIs(r.View(), rt, work); }
  }

  lemma DoneIs(T: Table, r: Route)
    ensures Done(T, r) <==>
      && r.d in T.documents
      && var status := T.documents[r.d].status;
      status in {Succeeded, Hold, Rejected, Failed, Archived} || (r.stage == Screen && status.Extracting?)
  {
  }

  lemma NoLease(T: Table, r: Route)
    ensures Ready(T, r) ==> CanLeasePostprocess(T, r.d, r.u, r.run, r.stage)
    ensures CanLeasePostprocess(T, r.d, r.u, r.run, r.stage) ==> r.d in T.documents && !Done(T, r)
  {
  }

  lemma NothingShown(T: Table, r: Route, work: Work)
    ensures Shows(T, r, work, Raised) && Shows(T, r, work, Skipped)
  {
  }

  // ------------------------------------------------- the whole success handler

  /** The success of this execution is on record, and the watchdog is not to look at it again. */
  predicate Recorded(T: Table, e: Event, r: Route) {
    e.execution.Some? ==>
      Find(T.lookups, LookupKeyOf(e, r)) == Some(Lookup(r.run, r.d, LookupSucceeded, None))
  }

  /** The success is on record with whatever marker was there before. */
  predicate StillWatched(T0: Table, T: Table, e: Event, r: Route) {
    e.execution.Some? ==>
      var k := LookupKeyOf(e, r);
      var marker := if k in T0.lookups then T0.lookups[k].marker else None;
      Find(T.lookups, k) == Some(Lookup(r.run, r.d, LookupSucceeded, marker))
  }

  ghost predicate OtherLookupsKept(T0: Table, T: Table, e: Event, r: Route) {
    && (e.execution.None? ==> T.lookups == T0.lookups)
    && (e.execution.Some? ==> forall k :: k != LookupKeyOf(e, r) ==> Find(T.lookups, k) == Find(T0.lookups, k))
  }

  function Marked(T: Table, e: Event, r: Route): Table {
    if e.execution.Some? then EndLookup(T, LookupKeyOf(e, r), r.run, r.d, LookupSucceeded) else T
  }

  function Unmarked(T: Table, e: Event, r: Route): Table {
    if e.execution.Some? then ClearMarker(T, LookupKeyOf(e, r)) else T
  }

  lemma MarkedSteps(T: Table, e: Event, r: Route)
    ensures Steps(T, RecordSuccess(e, r), Marked(T, e, r), Some(LeaseRead(e, r)))
    ensures Steps(T, Clear(e, r), Unmarked(T, e, r), None)
  {
  }

  lemma MarkedLeaves(T: Table, e: Event, r: Route)
    ensures var T' := Marked(T, e, r);
      && (Ready(T', r) <==> Ready(T, r)) && (Done(T', r) <==> Done(T, r))
      && StillWatched(T, T', e, r) && OtherLookupsKept(T, T', e, r)
      && (Recorded(T, e, r) ==> T' == T)
  {
    if e.execution.Some? && Recorded(T, e, r) {
      var k := LookupKeyOf(e, r);
      assert T.lookups[k := T.lookups[k]] == T.lookups;
    }
  }

  lemma UnmarkedLeaves(T0: Table, T: Table, e: Event, r: Route, work: Work, o: Outcome)
    requires StillWatched(T0, T, e, r) && OtherLookupsKept(T0, T, e, r) && Shows(T, r, work, o) && Done(T, r)
    ensures var T' := Unmarked(T, e, r);
      Recorded(T', e, r) && OtherLookupsKept(T0, T', e, r) && Shows(T', r, work, o) && Done(T', r)
    ensures Recorded(T, e, r) ==> Unmarked(T, e, r) == T
  {
    hide FullObject, ChoiceOf;
    if e.execution.Some? {
      var k := LookupKeyOf(e, r);
      if T.lookups[k].marker.None? { assert T.lookups[k := T.lookups[k].(marker := None)] == T.lookups; }
    }
  }

  lemma ShownIsDone(T: Table, r: Route, work: Work, o: Outcome)
    requires Shows(T, r, work, o) && (o.Advanced? || o.Held?)
    requires work.ScreenWork? <==> r.stage.Screen?
    ensures Done(T, r)
  {
    hide FullObject, ChoiceOf;
  }

  lemma LookupsKept(T0: Table, T1: Table, T2: Table, e: Event, r: Route)
    requires StillWatched(T0, T1, e, r) && OtherLookupsKept(T0, T1, e, r) && OnlyTheirs(T1, T2, r)
    ensures StillWatched(T0, T2, e, r) && OtherLookupsKept(T0, T2, e, r)
  {
  }

  /** The success branch of `process_workflow_event` after routing. If both rows are at this stage and the
      lease is free, the outcome is the selector's, or the extractor's, own. The marker goes only when
      everything else has succeeded: after a raise the watchdog still finds the execution. */
  method CompleteStage(r: RegistryTable, e: Event, rt: Route, work: Work) returns (o: Outcome)
    requires work.ScreenWork? <==> rt.stage.Screen?
    modifies r
    ensures !o.Ignored?
    ensures o.Skipped? <==> Done(old(r.View()), rt)
    ensures Ready(old(r.View()), rt) ==> o == Expected(work) && Worked(r.View(), rt, work)
    ensures Shows(r.View(), rt, work, o)
    ensures OtherLookupsKept(old(r.View()), r.View(), e, rt)
    ensures o.Raised? ==> StillWatched(old(r.View()), r.View(), e, rt)
    ensures !o.Raised? ==> Recorded(r.View(), e, rt) && Done(r.View(), rt)
    ensures !o.Raised? ==> Reaches(Steps, old(r.View()), RecordSuccess(e, rt), r.View(), None)
    ensures o.Skipped? && Recorded(old(r.View()), e, rt) ==> r.View() == old(r.View())
  {
    hide *;
    ghost var T0, t0 := r.View(), RecordSuccess(e, rt);
    Begins(Steps, T0, t0);
    MarkedSteps(T0, e, rt);
    MarkedLeaves(T0, e, rt);
    if e.execution.Some? { r.WriteLookupEnd(LookupKeyOf(e, rt), rt.run, rt.d, LookupSucceeded); }
    MarkedIs(T0, e, rt);
    ghost var T1 := r.View();
    Goes(Steps, T0, t0, T0, t0, T1, Some(LeaseRead(e, rt)));
    o := Process(r, e, rt, work, T0, t0);
    ghost var T2 := r.View();
    LookupsKept(T0, T1, T2, e, rt);
    if o.Raised? { return; }
    if !o.Skipped? { ShownIsDone(T2, rt, work, o); }
    MarkedSteps(T2, e, rt);
    UnmarkedLeaves(T0, T2, e, rt, work, o);
    MarkedIs(T2, e, rt);
    if e.execution.Some? { r.ClearActiveExecution(LookupKeyOf(e, rt)); }
    Goes(Steps, T0, t0, T2, Clear(e, rt), r.View(), None);
    if o == Expected(work) { WorkedIs(r.View(), rt, work); }
  }

  lemma MarkedIs(T: Table, e: Event, r: Route)
    ensures Marked(T, e, r) ==
      if e.execution.Some? then EndLookup(T, LookupKeyOf(e, r), r.run, r.d, LookupSucceeded) else T
    ensures Unmarked(T, e, r) == if e.execution.Some? then ClearMarker(T, LookupKeyOf(e, r)) else T
  {
  }

  /** Redelivery: once a success has been handled, handling it again, whatever the workflow output says
      this time, leaves exactly the same table. */
  method CompleteTwice(r: RegistryTable, e: Event, rt: Route, work: Work, again: Work)
    returns (first: Outcome, second: Outcome, ghost between: Table)
    requires (work.ScreenWork? <==> rt.stage.Screen?) && (again.ScreenWork? <==> rt.stage.Screen?)
    modifies r
    ensures !first.Raised? ==> second.Skipped? && r.View() == between && Shows(between, rt, work, first)
    ensures Ready(old(r.View()), rt) ==> first == Expected(work)
  {
    hide *;
    first := CompleteStage(r, e, rt, work);
    between := r.View();
    second := CompleteStage(r, e, rt, again);
  }

  // ------------------------------------------------------------ reachable tables

  /** In a reachable table the lease decides everything: whoever gets it finds both rows at its stage,
      so that, left alone, it commits. */
  lemma LeaseSuffices(T: Table, r: Route)
    requires Inv(T) && RouteOk(T, r) && CanLeasePostprocess(T, r.d, r.u, r.run, r.stage)
    ensures Ready(T, r)
  {
    UploadHolds(T, r.u);
    DocumentHolds(T, r.d);
  }
}
