/** The whole system: the shared table and any number of interleaved handlers of the three
    services, started by requests, signals and events, and crashing at any point. */
module System {
  import opened Records
  import opened Writes
  import opened Invariant
  import opened Preservation
  import opened Transactions
  import Up = UploadProcessor
  import Idp = IdpPostprocessor
  import Api = LoanApi

  datatype Thread = UpThread(up: Up.Invocation) | IdpThread(idp: Idp.Worker) | ApiThread(api: Api.Call)

  datatype State = State(table: Table, threads: map<nat, Thread>)

  /** What happens next. Clients put objects, GuardDuty reports scans, the watchdog moves markers,
      clocks read anything; a handler starts, takes one step, or crashes. */
  datatype Label =
    | Tick(clock: int)
    | PutSource(upload: Id, tag: nat)
    | Report(upload: Id, version: Id, scanCompleted: bool, raw: Option<Verdict>)
    | Watchdog(key: LookupKey, current: int, marker: Option<int>)
    | SpawnUp(tid: nat, signal: Id, up: Up.Invocation)
    | SpawnIdp(tid: nat, idp: Idp.Worker)
    | SpawnApi(tid: nat, api: Api.Call)
    | StepUp(tid: nat, upNext: Option<Up.Invocation>)
    | StepIdp(tid: nat, idpNext: Option<Idp.Worker>)
    | StepApi(tid: nat, apiNext: Option<Api.Call>)
    | Crash(tid: nat)

  predicate Init(s: State) {
    s == State(EMPTY_TABLE, map[])
  }

  function Without(threads: map<nat, Thread>, tid: nat): map<nat, Thread> {
    map x | x in threads && x != tid :: threads[x]
  }

  /** A handler's thread after its step: gone if it returned. */
  function After(threads: map<nat, Thread>, tid: nat, n: Option<Thread>): map<nat, Thread> {
    if n.Some? then threads[tid := n.value] else Without(threads, tid)
  }

  function AsUp(n: Option<Up.Invocation>): Option<Thread> { if n.Some? then Some(UpThread(n.value)) else None }
  function AsIdp(n: Option<Idp.Worker>): Option<Thread> { if n.Some? then Some(IdpThread(n.value)) else None }
  function AsApi(n: Option<Api.Call>): Option<Thread> { if n.Some? then Some(ApiThread(n.value)) else None }

  /** `s` can become `s'` by `l`. */
  predicate Does(s: State, l: Label, s': State) {
    var T, T' := s.table, s'.table;
    match l
    case Tick(clock) => T' == T.(clock := clock) && s'.threads == s.threads
    case PutSource(u, tag) =>
      T' == PutObject(T, Object(SourceKey(u), Uploaded(tag), None)) && s'.threads == s.threads
    case Report(u, version, scanCompleted, raw) =>
      T' == Send(T, GuardDuty(u, version, scanCompleted, raw)) && s'.threads == s.threads
    case Watchdog(k, current, marker) =>
      CanMoveMarker(T, k, current) && T' == MoveMarker(T, k, marker) && s'.threads == s.threads
    case SpawnUp(tid, signal, t) =>
      T' == T && tid !in s.threads && Up.Starts(T, signal, t)
      && s'.threads == s.threads[tid := UpThread(t)]
    case SpawnIdp(tid, t) =>
      T' == T && tid !in s.threads && Idp.Starts(T, t) && s'.threads == s.threads[tid := IdpThread(t)]
    case SpawnApi(tid, t) =>
      T' == T && tid !in s.threads && Api.Starts(t) && s'.threads == s.threads[tid := ApiThread(t)]
    case StepUp(tid, n) =>
      tid in s.threads && s.threads[tid].UpThread? && Up.Steps(T, s.threads[tid].up, T', n)
      && s'.threads == After(s.threads, tid, AsUp(n))
    case StepIdp(tid, n) =>
      tid in s.threads && s.threads[tid].IdpThread? && Idp.Steps(T, s.threads[tid].idp, T', n)
      && s'.threads == After(s.threads, tid, AsIdp(n))
    case StepApi(tid, n) =>
      tid in s.threads && s.threads[tid].ApiThread? && Api.Steps(T, s.threads[tid].api, T', n)
      && s'.threads == After(s.threads, tid, AsApi(n))
    case Crash(tid) => T' == T && s'.threads == Without(s.threads, tid)
  }

  /** A run: any finite sequence of states from the empty table. */
  ghost predicate Run(b: seq<State>, ls: seq<Label>) {
    && |b| == |ls| + 1
    && Init(b[0])
    && forall i :: 0 <= i < |ls| ==> Does(b[i], ls[i], b[i + 1])
  }

  // --------------------------------------------------------------- soundness

  ghost predicate ThreadOk(T: Table, t: Thread) {
    match t
    case UpThread(up) => Up.InvocationOk(T, up)
    case IdpThread(idp) => Idp.WorkerOk(T, idp)
    case ApiThread(api) => Api.CallOk(T, api)
  }

  ghost predicate ThreadsOk(T: Table, threads: map<nat, Thread>) {
    forall tid {:trigger ThreadOk(T, threads[tid])} :: tid in threads ==> ThreadOk(T, threads[tid])
  }

  ghost predicate Good(s: State) {
    Inv(s.table) && ThreadsOk(s.table, s.threads)
  }

  lemma InitGood(s: State)
    requires Init(s)
    ensures Good(s)
  {
  }

  lemma ThreadStable(T: Table, T': Table, t: Thread)
    requires Inv(T) && ThreadOk(T, t) && Evolves(T, T') && Inv(T')
    ensures ThreadOk(T', t)
  {
    hide Inv, Evolves;
    match t
    case UpThread(up) => Up.InvocationStable(T, T', up);
    case IdpThread(idp) => Idp.WorkerStable(T, T', idp);
    case ApiThread(api) => Api.CallStable(T, T', api);
  }

  lemma ThreadsStable(T: Table, T': Table, threads: map<nat, Thread>)
    requires Inv(T) && Evolves(T, T') && Inv(T') && ThreadsOk(T, threads)
    ensures ThreadsOk(T', threads)
  {
    hide Inv, Evolves, ThreadOk;
    forall tid | tid in threads ensures ThreadOk(T', threads[tid]) {
      ThreadStable(T, T', threads[tid]);
    }
  }

  /** One handler moved, the others still know what they knew. */
  lemma MovedGood(s: State, s': State, tid: nat, n: Option<Thread>)
    requires Good(s) && Inv(s'.table) && Evolves(s.table, s'.table)
    requires s'.threads == After(s.threads, tid, n)
    requires n.Some? ==> ThreadOk(s'.table, n.value)
    ensures Good(s')
  {
    ThreadsStable(s.table, s'.table, s.threads);
    hide Inv, Evolves, ThreadOk;
    forall x | x in s'.threads ensures ThreadOk(s'.table, s'.threads[x]) {
      if x != tid || n.None? { assert s'.threads[x] == s.threads[x]; }
    }
  }

  lemma SameThreadsGood(s: State, s': State)
    requires Good(s) && Inv(s'.table) && Evolves(s.table, s'.table) && s'.threads == s.threads
    ensures Good(s')
  {
    hide Inv, Evolves, ThreadOk;
    ThreadsStable(s.table, s'.table, s.threads);
  }

  predicate Environment(l: Label) {
    l.Tick? || l.PutSource? || l.Report? || l.Watchdog?
  }

  lemma EnvironmentStep(s: State, l: Label, s': State)
    requires Good(s) && Does(s, l, s') && Environment(l)
    ensures Good(s') && Evolves(s.table, s'.table)
  {
    hide Inv, Evolves, ThreadOk;
    var T := s.table;
    match l {
      case Tick(clock) => TickKeeps(T, clock);
      case PutSource(u, tag) => ObjectKeeps(T, Object(SourceKey(u), Uploaded(tag), None));
      case Report(u, version, scanCompleted, raw) =>
        SendKeeps(T, GuardDuty(u, version, scanCompleted, raw));
      case Watchdog(k, current, marker) => MoveMarkerKeeps(T, k, current, marker);
    }
    SameThreadsGood(s, s');
  }

  lemma SpawnStep(s: State, l: Label, s': State)
    requires Good(s) && Does(s, l, s') && (l.SpawnUp? || l.SpawnIdp? || l.SpawnApi? || l.Crash?)
    ensures Good(s') && Evolves(s.table, s'.table)
  {
    hide Inv, Evolves, ThreadOk;
    var T := s.table;
    DrawNothing(T);
    match l {
      case SpawnUp(tid, signal, t) =>
        Up.StartOk(T, signal, t);
        UpOk(T, t);
        MovedGood(s, s', tid, Some(UpThread(t)));
      case SpawnIdp(tid, t) =>
        Idp.StartOk(T, t);
        IdpOk(T, t);
        MovedGood(s, s', tid, Some(IdpThread(t)));
      case SpawnApi(tid, t) =>
        ApiOk(T, t);
        MovedGood(s, s', tid, Some(ApiThread(t)));
      case Crash(tid) => MovedGood(s, s', tid, None);
    }
  }

  lemma UpOk(T: Table, t: Up.Invocation) requires Up.InvocationOk(T, t) ensures ThreadOk(T, UpThread(t)) {}
  lemma IdpOk(T: Table, t: Idp.Worker) requires Idp.WorkerOk(T, t) ensures ThreadOk(T, IdpThread(t)) {}
  lemma ApiOk(T: Table, t: Api.Call) requires t.Begin? || Api.CallOk(T, t) ensures ThreadOk(T, ApiThread(t)) {}

  lemma HandlerStep(s: State, l: Label, s': State)
    requires Good(s) && Does(s, l, s') && (l.StepUp? || l.StepIdp? || l.StepApi?)
    ensures Good(s') && Evolves(s.table, s'.table)
  {
    var T, T' := s.table, s'.table;
    assert ThreadOk(T, s.threads[l.tid]);
    hide Inv, Evolves, Up.Steps, Idp.Steps, Api.Steps, Up.InvocationOk, Idp.WorkerOk, Api.CallOk;
    match l {
      case StepUp(tid, n) =>
        Up.StepTable(T, s.threads[tid].up, T', n);
        if n.Some? { Up.StepInvocation(T, s.threads[tid].up, T', n); }
        MovedGood(s, s', tid, AsUp(n));
      case StepIdp(tid, n) =>
        Idp.StepTable(T, s.threads[tid].idp, T', n);
        if n.Some? { Idp.StepWorker(T, s.threads[tid].idp, T', n); }
        MovedGood(s, s', tid, AsIdp(n));
      case StepApi(tid, n) =>
        Api.StepTable(T, s.threads[tid].api, T', n);
        if n.Some? { Api.StepCall(T, s.threads[tid].api, T', n); }
        MovedGood(s, s', tid, AsApi(n));
    }
  }

  /** Each step of the system keeps the invariant and only moves the table forward. */
  lemma StepGood(s: State, l: Label, s': State)
    requires Good(s) && Does(s, l, s')
    ensures Good(s') && Evolves(s.table, s'.table)
  {
    hide Good, Evolves, Does;
    if Environment(l) { EnvironmentStep(s, l, s'); }
    else if l.StepUp? || l.StepIdp? || l.StepApi? { HandlerStep(s, l, s'); }
    else { SpawnStep(s, l, s'); }
  }

  lemma RunStarts(b: seq<State>, ls: seq<Label>)
    requires Run(b, ls)
    ensures |b| == |ls| + 1 && Good(b[0])
  {
    InitGood(b[0]);
  }

  lemma RunDoes(b: seq<State>, ls: seq<Label>, i: nat)
    requires Run(b, ls) && i < |ls|
    ensures |b| == |ls| + 1 && Does(b[i], ls[i], b[i + 1])
  {
  }

  /** The invariant holds in every state of every run. */
  lemma {:induction false} RunGood(b: seq<State>, ls: seq<Label>, i: nat)
    requires Run(b, ls) && i <= |ls|
    ensures |b| == |ls| + 1 && Good(b[i])
  {
    hide *;
    if i == 0 {
      RunStarts(b, ls);
    } else {
      RunGood(b, ls, i - 1);
      RunDoes(b, ls, i - 1);
      StepGood(b[i - 1], ls[i - 1], b[i]);
    }
  }

  /** Between any two moments of a run, the table only moves forward. */
  lemma {:induction false} RunEvolves(b: seq<State>, ls: seq<Label>, i: nat, j: nat)
    requires Run(b, ls) && i <= j <= |ls|
    ensures |b| == |ls| + 1 && Evolves(b[i].table, b[j].table)
    decreases j
  {
    hide *;
    RunGood(b, ls, i);
    if i == j {
      Stays(b[i]);
    } else {
      RunEvolves(b, ls, i, j - 1);
      RunGood(b, ls, j - 1);
      RunDoes(b, ls, j - 1);
      StepGood(b[j - 1], ls[j - 1], b[j]);
      EvolvesTransitive(b[i].table, b[j - 1].table, b[j].table);
    }
  }

  lemma Stays(s: State)
    requires Good(s)
    ensures Evolves(s.table, s.table)
  {
    DrawNothing(s.table);
  }
}
