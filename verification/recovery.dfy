/** What an owed signal is good for: delivered once and left to run, it takes the upload out of
    VALIDATING, whatever crashed invocations have left behind. */
module Recovery {
  import opened Records
  import opened Writes
  import opened Invariant
  import opened Preservation
  import opened System
  import opened Wakeup
  import Up = UploadProcessor

  /** The steps of one delivery: the clock may move, the signal is delivered, its handler runs. */
  predicate Solo(l: Label, tid: nat, signal: Id) {
    || l.Tick?
    || (l.SpawnUp? && l.tid == tid && l.signal == signal)
    || (l.StepUp? && l.tid == tid)
  }

  /** The upload has been queued, rejected, held or failed. */
  predicate Left(T: Table, u: Id) {
    u in T.uploads && Rank(T.uploads[u].status) > Rank(Validating)
  }

  /** Some delivery of `signal` as thread `tid` takes the upload out within `k` steps. */
  ghost predicate Leaves(s: State, u: Id, tid: nat, signal: Id, k: nat)
    decreases k
  {
    || Left(s.table, u)
    || (k > 0 && exists l, m ::
          Solo(l, tid, signal) && Does(s, l, m) && Leaves(m, u, tid, signal, k - 1))
  }

  lemma LeavesBy(s: State, l: Label, m: State, u: Id, tid: nat, signal: Id, k: nat)
    requires Solo(l, tid, signal) && Does(s, l, m) && Leaves(m, u, tid, signal, k)
    ensures Leaves(s, u, tid, signal, k + 1)
  {
  }

  function Moved(s: State, T': Table, tid: nat, n: Up.Invocation): State {
    State(T', s.threads[tid := UpThread(n)])
  }

  ghost predicate At(s: State, u: Id, tid: nat, t: Up.Invocation) {
    && Good(s) && Ready(s.table, u) && t.u == u
    && tid in s.threads && s.threads[tid] == UpThread(t)
  }

  /** One step of the delivery, and what is left after it. */
  lemma Step(s: State, u: Id, tid: nat, t: Up.Invocation, T': Table, n: Up.Invocation)
    requires At(s, u, tid, t) && Up.Steps(s.table, t, T', Some(n))
    ensures Does(s, StepUp(tid, Some(n)), Moved(s, T', tid, n)) && Good(Moved(s, T', tid, n))
  {
    hide Up.Steps, Good;
    assert Does(s, StepUp(tid, Some(n)), Moved(s, T', tid, n));
    StepGood(s, StepUp(tid, Some(n)), Moved(s, T', tid, n));
  }

  /** The invocation's facts, and those of the upload's document. */
  lemma Facts(s: State, u: Id, tid: nat, t: Up.Invocation)
    requires At(s, u, tid, t)
    ensures Up.InvocationOk(s.table, t)
    ensures u in s.table.uploads && UploadOk(s.table, u)
    ensures s.table.uploads[u].document in s.table.documents
    ensures DocumentOk(s.table, s.table.uploads[u].document)
  {
    assert ThreadOk(s.table, s.threads[tid]);
    UploadHolds(s.table, u);
    DocumentHolds(s.table, s.table.uploads[u].document);
  }

  lemma Now(s: State, u: Id, tid: nat, signal: Id, k: nat)
    requires Left(s.table, u)
    ensures Leaves(s, u, tid, signal, k)
  {
  }

  lemma FailCan(s: State, u: Id, tid: nat, t: Up.Invocation)
    requires At(s, u, tid, t)
    ensures CanFailUpload(s.table, u)
  {
    Facts(s, u, tid, t);
  }

  lemma FailLeft(T: Table, t: Up.Invocation)
    requires t.Fail? && Up.LocalsOk(T, t) && CanFailUpload(T, t.u)
    ensures var T' := FailUpload(T, t.u, t.code, t.disposition, t.version);
      Left(T', t.u) && Up.Steps(T, t, T', Some(Up.Return(t.signal, t.u, false)))
  {
  }

  lemma FromFail(s: State, u: Id, tid: nat, t: Up.Invocation)
    requires At(s, u, tid, t) && t.Fail?
    ensures Leaves(s, u, tid, t.signal, 1)
  {
    hide Good, Does, UploadOk, DocumentOk, Up.Steps, FailUpload, CanFailUpload, Up.LocalsOk;
    FailCan(s, u, tid, t);
    Facts(s, u, tid, t);
    FailLeft(s.table, t);
    var n := Up.Return(t.signal, u, false);
    var T' := FailUpload(s.table, u, t.code, t.disposition, t.version);
    Step(s, u, tid, t, T', n);
    Now(Moved(s, T', tid, n), u, tid, t.signal, 0);
    LeavesBy(s, StepUp(tid, Some(n)), Moved(s, T', tid, n), u, tid, t.signal, 0);
  }

  lemma QueueCan(s: State, u: Id, tid: nat, t: Up.Invocation)
    requires At(s, u, tid, t) && t.Queue?
    requires s.table.uploads[u].scan == Some(Clean) && Holds(s.table.uploads[u].lease, t.token)
    ensures t.snap.run.Some? && CanQueue(s.table, u, t.snap.run.value, t.version, t.token)
  {
    hide Good;
    Facts(s, u, tid, t);
  }

  lemma FromQueue(s: State, u: Id, tid: nat, t: Up.Invocation)
    requires At(s, u, tid, t) && t.Queue?
    requires s.table.uploads[u].scan == Some(Clean) && Holds(s.table.uploads[u].lease, t.token)
    ensures Leaves(s, u, tid, t.signal, 1)
  {
    hide Good;
    QueueCan(s, u, tid, t);
    var n := Up.Return(t.signal, u, false);
    var T' := CommitQueued(s.table, u, t.snap.run.value, t.version, t.token, t.staged);
    Step(s, u, tid, t, T', n);
    hide Does;
    Now(Moved(s, T', tid, n), u, tid, t.signal, 0);
    LeavesBy(s, StepUp(tid, Some(n)), Moved(s, T', tid, n), u, tid, t.signal, 0);
  }

  lemma FromValidate(s: State, u: Id, tid: nat, t: Up.Invocation)
    requires At(s, u, tid, t) && t.Validate?
    requires s.table.uploads[u].scan == Some(Clean) && Holds(s.table.uploads[u].lease, t.token)
    ensures Leaves(s, u, tid, t.signal, 2)
  {
    hide Good;
    Facts(s, u, tid, t);
    hide UploadOk, DocumentOk;
    var T' := PutObject(s.table, ScreenObject(u, t.snap, t.version));
    var n := Up.Queue(t.signal, u, t.version, t.snap, t.token, Ref(ScreenKey(t.snap.run.value, u), s.table.next));
    Step(s, u, tid, t, T', n);
    hide Does;
    FromQueue(Moved(s, T', tid, n), u, tid, n);
    LeavesBy(s, StepUp(tid, Some(n)), Moved(s, T', tid, n), u, tid, t.signal, 1);
  }

  lemma FromLease(s: State, u: Id, tid: nat, t: Up.Invocation)
    requires At(s, u, tid, t) && t.LeaseTry? && s.table.uploads[u].scan == Some(Clean)
    requires LeaseFree(s.table.uploads[u].lease, s.table.clock)
    ensures Leaves(s, u, tid, t.signal, 3)
  {
    hide Good;
    Facts(s, u, tid, t);
    hide UploadOk, DocumentOk;
    assert CanLeaseValidation(s.table, u, t.version);
    var T' := LeaseValidation(s.table, u);
    var n := Up.Validate(t.signal, u, t.version, t.snap, s.table.next);
    Step(s, u, tid, t, T', n);
    hide Does;
    FromValidate(Moved(s, T', tid, n), u, tid, n);
    LeavesBy(s, StepUp(tid, Some(n)), Moved(s, T', tid, n), u, tid, t.signal, 2);
  }

  /** A lease that a crashed invocation left behind has run out once the clock is past it. */
  function Late(s: State, u: Id): State
    requires u in s.table.uploads
  {
    var lease := s.table.uploads[u].lease;
    s.(table := s.table.(clock := if lease.Some? then lease.value.expires + 1 else s.table.clock))
  }

  lemma FromLeaseTry(s: State, u: Id, tid: nat, t: Up.Invocation)
    requires At(s, u, tid, t) && t.LeaseTry? && s.table.uploads[u].scan == Some(Clean)
    ensures Leaves(s, u, tid, t.signal, 4)
  {
    var m := Late(s, u);
    hide Good;
    assert Does(s, Tick(m.table.clock), m);
    StepGood(s, Tick(m.table.clock), m);
    hide Does;
    FromLease(m, u, tid, t);
    LeavesBy(s, Tick(m.table.clock), m, u, tid, t.signal, 3);
  }

  lemma FromLeaseCheck(s: State, u: Id, tid: nat, t: Up.Invocation)
    requires At(s, u, tid, t) && t.LeaseCheck? && s.table.uploads[u].scan == Some(Clean)
    ensures Leaves(s, u, tid, t.signal, 5)
  {
    hide Good;
    var n := Up.LeaseTry(t.signal, u, t.version, t.snap);
    Step(s, u, tid, t, s.table, n);
    hide Does;
    FromLeaseTry(Moved(s, s.table, tid, n), u, tid, n);
    LeavesBy(s, StepUp(tid, Some(n)), Moved(s, s.table, tid, n), u, tid, t.signal, 4);
  }

  lemma LeavesMore(s: State, u: Id, tid: nat, signal: Id, k: nat)
    requires Leaves(s, u, tid, signal, k)
    ensures Leaves(s, u, tid, signal, k + 1)
    decreases k
  {
    if !Left(s.table, u) {
      var l, m :| Solo(l, tid, signal) && Does(s, l, m) && Leaves(m, u, tid, signal, k - 1);
      LeavesMore(m, u, tid, signal, k - 1);
    }
  }

  lemma FromSyncSummary(s: State, u: Id, tid: nat, t: Up.Invocation)
    requires At(s, u, tid, t) && t.SyncSummary? && t.snap.sourceVersion.Some?
    ensures Leaves(s, u, tid, t.signal, 6)
  {
    hide Good;
    Facts(s, u, tid, t);
    hide UploadOk, DocumentOk;
    var T' := SetSummary(s.table, u, t.verdict, t.version);
    var n := if !t.verdict.Clean? then Up.FailScan(t.signal, u, t.version, t.verdict)
             else Up.LeaseCheck(t.signal, u, t.version, t.snap);
    Step(s, u, tid, t, T', n);
    hide Does;
    var m := Moved(s, T', tid, n);
    if t.verdict.Clean? {
      FromLeaseCheck(m, u, tid, n);
    } else {
      FromFail(m, u, tid, n);
      LeavesMore(m, u, tid, t.signal, 1);
      LeavesMore(m, u, tid, t.signal, 2);
      LeavesMore(m, u, tid, t.signal, 3);
      LeavesMore(m, u, tid, t.signal, 4);
    }
    LeavesBy(s, StepUp(tid, Some(n)), m, u, tid, t.signal, 5);
  }

  lemma FromLoadScan(s: State, u: Id, tid: nat, t: Up.Invocation)
    requires At(s, u, tid, t) && t.LoadScan? && t.snap.sourceVersion.Some?
    ensures Leaves(s, u, tid, t.signal, 7)
  {
    hide Good;
    Facts(s, u, tid, t);
    hide UploadOk, DocumentOk;
    var n := Up.SyncSummary(t.signal, u, t.version, t.snap, s.table.scans[(u, t.version)].verdict);
    Step(s, u, tid, t, s.table, n);
    hide Does;
    FromSyncSummary(Moved(s, s.table, tid, n), u, tid, n);
    LeavesBy(s, StepUp(tid, Some(n)), Moved(s, s.table, tid, n), u, tid, t.signal, 6);
  }

  lemma FromReconcile(s: State, u: Id, tid: nat, t: Up.Invocation)
    requires At(s, u, tid, t) && t.Reconcile?
    ensures Leaves(s, u, tid, t.signal, 8)
  {
    var snap := s.table.uploads[u];
    hide Good;
    var n := Up.LoadScan(t.signal, u, snap.sourceVersion.value, snap);
    Step(s, u, tid, t, s.table, n);
    hide Does;
    FromLoadScan(Moved(s, s.table, tid, n), u, tid, n);
    LeavesBy(s, StepUp(tid, Some(n)), Moved(s, s.table, tid, n), u, tid, t.signal, 7);
  }

  lemma FromSummary(s: State, u: Id, tid: nat, t: Up.Invocation)
    requires At(s, u, tid, t) && t.Summary? && t.seen
    ensures Leaves(s, u, tid, t.signal, 9)
  {
    hide Good;
    var T' := SetSummary(s.table, u, t.verdict, t.version);
    var n := Up.Reconcile(t.signal, u, t.version);
    Step(s, u, tid, t, T', n);
    hide Does;
    FromReconcile(Moved(s, T', tid, n), u, tid, n);
    LeavesBy(s, StepUp(tid, Some(n)), Moved(s, T', tid, n), u, tid, t.signal, 8);
  }

  lemma FromScanPut(s: State, u: Id, tid: nat, t: Up.Invocation)
    requires At(s, u, tid, t) && t.ScanPut? && t.seen
    ensures Leaves(s, u, tid, t.signal, 10)
  {
    hide Good;
    var T' := PutScan(s.table, u, t.version, t.verdict, t.scanCompleted);
    var n := Up.Summary(t.signal, u, t.version, t.verdict, true);
    Step(s, u, tid, t, T', n);
    hide Does;
    FromSummary(Moved(s, T', tid, n), u, tid, n);
    LeavesBy(s, StepUp(tid, Some(n)), Moved(s, T', tid, n), u, tid, t.signal, 9);
  }

  lemma FromScanRead(s: State, u: Id, tid: nat, t: Up.Invocation)
    requires At(s, u, tid, t) && t.ScanRead? && t.seen
    ensures Leaves(s, u, tid, t.signal, 11)
  {
    hide Good;
    var recorded := Find(s.table.scans, (u, t.version));
    var final := if recorded.Some? && recorded.value.verdict != t.verdict then Conflict else t.verdict;
    var n := Up.ScanPut(t.signal, u, t.version, final, t.scanCompleted, true);
    Step(s, u, tid, t, s.table, n);
    hide Does;
    FromScanPut(Moved(s, s.table, tid, n), u, tid, n);
    LeavesBy(s, StepUp(tid, Some(n)), Moved(s, s.table, tid, n), u, tid, t.signal, 10);
  }

  /** How an owed signal starts when its index read is fresh. */
  function FirstStep(T: Table, signal: Id): Up.Invocation
    requires signal in T.signals && Wakes(T.signals[signal])
  {
    match T.signals[signal]
    case GuardDuty(u, version, scanCompleted, raw) =>
      Up.ScanRead(signal, u, version, NormalizeVerdict(scanCompleted, raw), scanCompleted, true)
    case ClientComplete(u, version) => Up.Reconcile(signal, u, version)
    case StreamRecord(u, old_, new_) => Up.Reconcile(signal, u, Up.StreamSignal(old_, new_).version)
  }

  lemma Start(s: State, u: Id, tid: nat, signal: Id)
    requires Good(s) && Ready(s.table, u) && Owed(s, u, signal) && tid !in s.threads
    ensures var t := FirstStep(s.table, signal);
      var m := State(s.table, s.threads[tid := UpThread(t)]);
      Does(s, SpawnUp(tid, signal, t), m) && At(m, u, tid, t) && t.signal == signal
      && ((t.ScanRead? && t.seen) || t.Reconcile?)
  {
    hide Good;
    var t := FirstStep(s.table, signal);
    var m := State(s.table, s.threads[tid := UpThread(t)]);
    assert Does(s, SpawnUp(tid, signal, t), m);
    StepGood(s, SpawnUp(tid, signal, t), m);
  }

  /** One delivery of an owed signal is enough. */
  lemma Delivery(s: State, u: Id, tid: nat, signal: Id)
    requires Good(s) && Ready(s.table, u) && Owed(s, u, signal) && tid !in s.threads
    ensures Leaves(s, u, tid, signal, 12)
  {
    hide Good, Does, Ready, Leaves;
    var t := FirstStep(s.table, signal);
    var m := State(s.table, s.threads[tid := UpThread(t)]);
    Start(s, u, tid, signal);
    if t.ScanRead? {
      FromScanRead(m, u, tid, t);
    } else {
      FromReconcile(m, u, tid, t);
      LeavesMore(m, u, tid, signal, 8);
      LeavesMore(m, u, tid, signal, 9);
      LeavesMore(m, u, tid, signal, 10);
    }
    LeavesBy(s, SpawnUp(tid, signal, t), m, u, tid, signal, 11);
  }

  // ------------------------------------------------------------ every delivery

  /** Any behaviour of one delivery: whatever the clock reads and the PDF check finds. */
  ghost predicate SoloPath(ss: seq<State>, ls: seq<Label>, tid: nat, signal: Id) {
    && |ss| == |ls| + 1
    && forall i :: 0 <= i < |ls| ==> Solo(ls[i], tid, signal) && Does(ss[i], ls[i], ss[i + 1])
  }

  /** The upload has left VALIDATING, or the signal is owed to it as before. */
  ghost predicate OnTheWay(s: State, u: Id, tid: nat, signal: Id) {
    && Good(s)
    && (Left(s.table, u) || (Ready(s.table, u) && Owed(s, u, signal)))
    && (tid in s.threads ==> s.threads[tid].UpThread? && s.threads[tid].up.signal == signal)
  }

  lemma ReadyOrLeft(T: Table, T': Table, u: Id)
    requires Evolves(T, T') && (Left(T, u) || Ready(T, u)) && (u in T.uploads ==> UploadOk(T, u))
    ensures Left(T', u) || Ready(T', u)
    ensures Left(T, u) ==> Left(T', u)
  {
    UploadAdvances(T, T', u);
    EvolvesParts(T, T');
    hide Evolves;
  }

  predicate Returns(s: State, l: Label, signal: Id) {
    l.StepUp? && l.tid in s.threads && s.threads[l.tid].UpThread?
    && s.threads[l.tid].up.signal == signal && s.threads[l.tid].up.Return?
  }

  ghost predicate SignalKept(s: State, s': State, signal: Id) {
    && signal in s'.table.pending && signal in s.table.signals && signal in s'.table.signals
    && s'.table.signals[signal] == s.table.signals[signal]
  }

  lemma ReturnsNotOwed(s: State, l: Label, u: Id, signal: Id)
    requires Good(s) && Ready(s.table, u) && Owed(s, u, signal)
    ensures !Returns(s, l, signal)
  {
    hide Good, Ready, Owed;
    if l.StepUp? && l.tid in s.threads && s.threads[l.tid].UpThread? && s.threads[l.tid].up.Return? {
      ReturnedNotOwed(s, l, u);
    }
  }

  lemma LoudKeeps(s: State, l: Label, s': State, u: Id, signal: Id)
    requires Good(s) && Does(s, l, s') && Owed(s, u, signal) && Loud(s, l, s') && !l.StepApi?
    requires !Returns(s, l, signal)
    ensures SignalKept(s, s', signal)
  {
    hide Good, Does;
    if s.threads[l.tid].up.ScanPut? { ScanPutFacts(s, l, s'); } else { ReturnTable(s, l, s'); }
  }

  /** An owed signal of a ready upload is not acknowledged. */
  lemma PendingStill(s: State, l: Label, s': State, u: Id, signal: Id)
    requires Good(s) && Does(s, l, s') && Ready(s.table, u) && Owed(s, u, signal) && !l.StepApi?
    requires Extends(s.table.signals, s'.table.signals)
    ensures SignalKept(s, s', signal) && !Returns(s, l, signal)
  {
    hide Good, Does, Ready, Loud, Returns, Extends;
    ReturnsNotOwed(s, l, u, signal);
    if Loud(s, l, s') {
      LoudKeeps(s, l, s', u, signal);
    } else {
      StepQuiet(s, l, s');
      PendingQuiet(s, s', u, signal);
    }
  }

  lemma ReturnTable(s: State, l: Label, s': State)
    requires Does(s, l, s') && l.StepUp? && l.tid in s.threads && s.threads[l.tid].UpThread?
    requires s.threads[l.tid].up.Return?
    ensures s'.table == Acknowledge(s.table, s.threads[l.tid].up.signal)
  {
  }

  lemma SoloThread(s: State, l: Label, s': State, tid: nat, signal: Id)
    requires Does(s, l, s') && Solo(l, tid, signal)
    requires tid in s.threads ==> s.threads[tid].UpThread? && s.threads[tid].up.signal == signal
    ensures tid in s'.threads ==> s'.threads[tid].UpThread? && s'.threads[tid].up.signal == signal
  {
    hide Up.Steps, Up.Starts;
    if l.StepUp? && l.upNext.Some? { StepsSignal(s.table, s.threads[tid].up, s'.table, l.upNext); }
    if l.SpawnUp? { StartsSignal(s.table, signal, l.up); }
  }

  lemma SoloStep(s: State, l: Label, s': State, u: Id, tid: nat, signal: Id)
    requires OnTheWay(s, u, tid, signal) && Does(s, l, s') && Solo(l, tid, signal)
    ensures OnTheWay(s', u, tid, signal)
    ensures l.StepUp? && l.upNext.None? ==> Left(s'.table, u)
  {
    hide Good, Does, Evolves, Owed, Ready, Left, Extends;
    StepGood(s, l, s');
    SoloThread(s, l, s', tid, signal);
    SignalsExtend(s.table, s'.table);
    UploadThere(s, u);
    ReadyOrLeft(s.table, s'.table, u);
    if !Left(s.table, u) {
      PendingStill(s, l, s', u, signal);
      if l.StepUp? { OnlyReturns(s, l, s'); }
      if Ready(s'.table, u) { OwedKept(s, l, s', u, signal); }
    }
  }

  lemma UploadThere(s: State, u: Id)
    requires Good(s) && (Left(s.table, u) || Ready(s.table, u))
    ensures u in s.table.uploads && UploadOk(s.table, u)
  {
    UploadHolds(s.table, u);
  }

  /** An invocation ends only by returning. */
  lemma OnlyReturns(s: State, l: Label, s': State)
    requires Does(s, l, s') && l.StepUp?
    ensures l.tid in s.threads && s.threads[l.tid].UpThread?
    ensures l.upNext.None? ==> s.threads[l.tid].up.Return?
  {
  }

  /** Every delivery of an owed signal that runs by itself and reaches its return has taken the upload
      out of VALIDATING, whatever it came upon on its way. */
  lemma {:induction false} EveryDelivery(ss: seq<State>, ls: seq<Label>, u: Id, tid: nat, signal: Id)
    requires SoloPath(ss, ls, tid, signal) && Good(ss[0]) && Ready(ss[0].table, u) && Owed(ss[0], u, signal)
    requires tid !in ss[0].threads
    ensures OnTheWay(ss[|ls|], u, tid, signal)
    ensures |ls| > 0 && ls[|ls| - 1].StepUp? && ls[|ls| - 1].upNext.None? ==> Left(ss[|ls|].table, u)
    decreases |ls|
  {
    hide Good, Does, Ready, Owed, Left, Solo;
    if |ls| > 0 {
      var n := |ls| - 1;
      var ss', ls' := ss[..n + 1], ls[..n];
      assert forall i :: 0 <= i < n ==> Solo(ls'[i], tid, signal) && Does(ss'[i], ls'[i], ss'[i + 1]);
      EveryDelivery(ss', ls', u, tid, signal);
      assert Solo(ls[n], tid, signal) && Does(ss[n], ls[n], ss[n + 1]);
      SoloStep(ss[n], ls[n], ss[n + 1], u, tid, signal);
    }
  }

  /** No upload is ever stuck: in every state of every run, an upload that is VALIDATING with a
      scanned pinned version has a pending signal one delivery of which, run by itself, takes it
      out of VALIDATING within twelve steps. */
  lemma NeverStuck(b: seq<State>, ls: seq<Label>, i: nat, u: Id, tid: nat)
    requires Run(b, ls) && i <= |ls| && |b| == |ls| + 1 && tid !in b[i].threads
    requires Ready(b[i].table, u)
    ensures exists signal :: signal in b[i].table.pending && Leaves(b[i], u, tid, signal, 12)
  {
    RunLosesNothing(b, ls, i);
    RunGood(b, ls, i);
    hide Run, Good, Ready, Leaves;
    assert Awake(b[i], u);
    var signal :| Owed(b[i], u, signal);
    Delivery(b[i], u, tid, signal);
  }
}
