/** One run from the empty table to an upload with both halves in, and on out of VALIDATING: the
    premises of the results over runs are met by real behaviour. */
module Journey {
  import opened Records
  import opened Writes
  import opened System
  import opened Wakeup
  import opened Recovery
  import Up = UploadProcessor
  import Api = LoanApi

  ghost predicate Reachable(s: State) {
    exists b, ls :: Run(b, ls) && |b| == |ls| + 1 && b[|ls|] == s
  }

  lemma StartReachable()
    ensures Reachable(State(EMPTY_TABLE, map[]))
  {
    assert Run([State(EMPTY_TABLE, map[])], []);
  }

  lemma NextReachable(s: State, l: Label, s': State)
    requires Reachable(s) && Does(s, l, s')
    ensures Reachable(s')
  {
    var b, ls :| Run(b, ls) && |b| == |ls| + 1 && b[|ls|] == s;
    hide Does;
    RunLonger(b, ls, l, s');
    assert (b + [s'])[|ls + [l]|] == s';
  }

  /** A single call in progress on the table. */
  function Calling(T: Table, t: Api.Call): State { State(T, map[0 := ApiThread(t)]) }
  function Idle(T: Table): State { State(T, map[]) }

  lemma CallBegins(T: Table, q: Api.Request)
    requires Reachable(Idle(T))
    ensures Reachable(Calling(T, Api.Begin(q)))
  {
    var t := Api.Begin(q);
    assert map[][0 := ApiThread(t)] == map[0 := ApiThread(t)];
    NextReachable(Idle(T), SpawnApi(0, t), Calling(T, t));
  }

  lemma CallSteps(T: Table, t: Api.Call, T': Table, n: Api.Call)
    requires Reachable(Calling(T, t)) && Api.Steps(T, t, T', Some(n))
    ensures Reachable(Calling(T', n))
  {
    hide Api.Steps;
    assert map[0 := ApiThread(t)][0 := ApiThread(n)] == map[0 := ApiThread(n)];
    NextReachable(Calling(T, t), StepApi(0, Some(n)), Calling(T', n));
  }

  lemma CallDropped(T: Table, t: Api.Call)
    requires Reachable(Calling(T, t))
    ensures Reachable(Idle(T))
  {
    assert Without(map[0 := ApiThread(t)], 0) == map[];
    NextReachable(Calling(T, t), Crash(0), Idle(T));
  }

  // --- one move of some handler

  lemma Spawns(s: State, l: Label, tid: nat, t: Thread)
    requires Reachable(s) && tid !in s.threads
    requires (t.ApiThread? && l == SpawnApi(tid, t.api) && Api.Starts(t.api))
             || (t.UpThread? && l.SpawnUp? && l == SpawnUp(tid, l.signal, t.up) && Up.Starts(s.table, l.signal, t.up))
    ensures Reachable(s.(threads := s.threads[tid := t]))
  {
    hide Up.Starts, Reachable;
    NextReachable(s, l, s.(threads := s.threads[tid := t]));
  }

  lemma ApiMoves(s: State, tid: nat, t: Api.Call, T': Table, n: Api.Call)
    requires Reachable(s) && tid in s.threads && s.threads[tid] == ApiThread(t) && Api.Steps(s.table, t, T', Some(n))
    ensures Reachable(State(T', s.threads[tid := ApiThread(n)]))
  {
    hide Api.Steps, Reachable;
    NextReachable(s, StepApi(tid, Some(n)), State(T', s.threads[tid := ApiThread(n)]));
  }

  lemma ApiDoes(s: State, tid: nat, t: Api.Call, T': Table, n: Api.Call)
    requires tid in s.threads && s.threads[tid] == ApiThread(t) && Api.Steps(s.table, t, T', Some(n))
    ensures Does(s, StepApi(tid, Some(n)), State(T', s.threads[tid := ApiThread(n)]))
  {
    hide Api.Steps;
  }

  lemma UpMoves(s: State, tid: nat, t: Up.Invocation, T': Table, n: Up.Invocation)
    requires Reachable(s) && tid in s.threads && s.threads[tid] == UpThread(t) && Up.Steps(s.table, t, T', Some(n))
    ensures Reachable(State(T', s.threads[tid := UpThread(n)]))
  {
    hide Up.Steps, Reachable;
    NextReachable(s, StepUp(tid, Some(n)), State(T', s.threads[tid := UpThread(n)]));
  }

  lemma Drops(s: State, tid: nat)
    requires Reachable(s)
    ensures Reachable(s.(threads := Without(s.threads, tid)))
  {
    hide Reachable;
    NextReachable(s, Crash(tid), s.(threads := Without(s.threads, tid)));
  }

  const LOAN: LoanKey := LoanKey(0, 0)

  function Ask(path: Path): Api.Request { Api.Request(Identity(0, path, 0), RequestBody(LOAN, 0)) }

  /** A loan, by its first call. */
  ghost predicate HasLoan(T: Table) {
    && HeadIs(T, LOAN, 0) && T.heads[LOAN].lastArchive == 0 && T.next == 1
    && T.idempotency.Keys == {Identity(0, LoansPath, 0)} && 0 in T.instances && T.instances[0].active
    && T.documents == map[] && T.uploads == map[] && T.signals == map[] && T.scans == map[]
    && T.archives == map[] && T.loanArchives == map[]
  }

  lemma LoanCreated() returns (T: Table)
    ensures Reachable(Idle(T)) && HasLoan(T)
  {
    StartReachable();
    var q := Ask(LoansPath);
    CallBegins(EMPTY_TABLE, q);
    CallSteps(EMPTY_TABLE, Api.Begin(q), EMPTY_TABLE, Api.LoanTxn(q));
    T := CreateLoan(EMPTY_TABLE, LOAN, q.identity, Api.HashOf(q));
    var done := Api.Respond(q, ReplyBody.LoanCreated(LOAN, 0));
    CallSteps(EMPTY_TABLE, Api.LoanTxn(q), T, done);
    CallDropped(T, done);
  }

  /** A document with its first upload. */
  ghost predicate HasUpload(T: Table) {
    && HeadIs(T, LOAN, 0) && T.next == 4
    && T.idempotency.Keys == {Identity(0, LoansPath, 0), Identity(0, DocumentsPath(LOAN), 0)}
    && T.documents == map[1 := NewDocument(0, 2)] && T.uploads == map[2 := NewUpload(1)]
    && T.signals.Keys == {3} && T.scans == map[] && T.archives == map[]
  }

  lemma UploadCreated() returns (T': Table)
    ensures Reachable(Idle(T')) && HasUpload(T')
  {
    var T := LoanCreated();
    var q := Ask(DocumentsPath(LOAN));
    CallBegins(T, q);
    hide Reachable, CreateDocument;
    CallSteps(T, Api.Begin(q), T, Api.ReadHead(q));
    CallSteps(T, Api.ReadHead(q), T, Api.DocumentTxn(q, 0));
    T' := CreateDocument(T, 0, q.identity, Api.HashOf(q));
    var done := Api.Respond(q, UploadSession(1, 2));
    CallSteps(T, Api.DocumentTxn(q, 0), T', done);
    CallDropped(T', done);
    DocumentFacts(T, q);
  }

  lemma DocumentFacts(T: Table, q: Api.Request)
    requires HasLoan(T) && q == Ask(DocumentsPath(LOAN))
    ensures HasUpload(CreateDocument(T, 0, q.identity, Api.HashOf(q)))
  {
    CreateDocumentIs(T, 0, q.identity, Api.HashOf(q));
    hide CreateDocument;
  }

  /** The client has put its object, and the scanner has reported it clean. */
  ghost predicate HasReport(T: Table) {
    && HeadIs(T, LOAN, 0) && T.next == 6 && T.archives == map[]
    && T.idempotency.Keys == {Identity(0, LoansPath, 0), Identity(0, DocumentsPath(LOAN), 0)}
    && T.documents == map[1 := NewDocument(0, 2)] && T.uploads == map[2 := NewUpload(1)]
    && SourceKey(2) in T.latest && T.latest[SourceKey(2)] == 4
    && 5 in T.signals && T.signals[5] == GuardDuty(2, 4, true, Some(Clean)) && T.scans == map[]
  }

  lemma ScanReported() returns (T2: Table)
    ensures Reachable(Idle(T2)) && HasReport(T2)
  {
    var T := UploadCreated();
    var T1 := PutObject(T, Object(SourceKey(2), Uploaded(0), None));
    NextReachable(Idle(T), PutSource(2, 0), Idle(T1));
    T2 := Send(T1, GuardDuty(2, 4, true, Some(Clean)));
    NextReachable(Idle(T1), Report(2, 4, true, Some(Clean)), Idle(T2));
  }

  /** The client has completed the upload, which pins the version that it put. */
  ghost predicate HasCompletion(T: Table) {
    && HeadIs(T, LOAN, 0) && T.next == 8 && T.archives == map[]
    && Identity(0, ArchiveDocumentPath(LOAN, 1), 0) !in T.idempotency
    && T.documents == map[1 := NewDocument(0, 2).(status := Validating, run := Some(6))]
    && T.uploads == map[2 := NewUpload(1).(status := Validating, completed := true, run := Some(6),
                                           sourceVersion := Some(4))]
    && 5 in T.signals && T.signals[5] == GuardDuty(2, 4, true, Some(Clean)) && T.scans == map[]
  }

  lemma CompletionFacts(T: Table, q: Api.Request)
    requires HasReport(T) && q == Ask(CompletePath(LOAN, 1, 2))
    ensures CanComplete(T, 1, 2, q.identity)
    ensures HasCompletion(CompleteUpload(T, 1, 2, 4, q.identity, Api.HashOf(q)))
  {
  }

  lemma CompletionReads(T: Table, q: Api.Request)
    requires HasReport(T) && q == Ask(CompletePath(LOAN, 1, 2))
    ensures Api.Steps(T, Api.Begin(q), T, Some(Api.ReadHead(q)))
    ensures Api.Steps(T, Api.ReadHead(q), T, Some(Api.ReadDocument(q, 0)))
    ensures Api.Steps(T, Api.ReadDocument(q, 0), T, Some(Api.ReadUpload(q)))
    ensures Api.Steps(T, Api.ReadUpload(q), T, Some(Api.PinVersion(q)))
    ensures Api.Steps(T, Api.PinVersion(q), T, Some(Api.CompleteTxn(q, 4)))
  {
  }

  lemma CompletionWrites(T: Table, q: Api.Request)
    requires HasReport(T) && q == Ask(CompletePath(LOAN, 1, 2)) && CanComplete(T, 1, 2, q.identity)
    ensures Api.Steps(T, Api.CompleteTxn(q, 4), CompleteUpload(T, 1, 2, 4, q.identity, Api.HashOf(q)),
                      Some(Api.Invoke(q, UploadCompleted(1, 2, 6, Validating))))
  {
    hide CompleteUpload;
  }

  lemma UploadIsCompleted() returns (T': Table)
    ensures Reachable(Idle(T')) && HasCompletion(T')
  {
    var T := ScanReported();
    var q := Ask(CompletePath(LOAN, 1, 2));
    CallBegins(T, q);
    CompletionFacts(T, q);
    CompletionReads(T, q);
    CompletionWrites(T, q);
    hide *;
    CallSteps(T, Api.Begin(q), T, Api.ReadHead(q));
    CallSteps(T, Api.ReadHead(q), T, Api.ReadDocument(q, 0));
    CallSteps(T, Api.ReadDocument(q, 0), T, Api.ReadUpload(q));
    CallSteps(T, Api.ReadUpload(q), T, Api.PinVersion(q));
    CallSteps(T, Api.PinVersion(q), T, Api.CompleteTxn(q, 4));
    T' := CompleteUpload(T, 1, 2, 4, q.identity, Api.HashOf(q));
    var done := Api.Invoke(q, UploadCompleted(1, 2, 6, Validating));
    CallSteps(T, Api.CompleteTxn(q, 4), T', done);
    CallDropped(T', done);
  }

  function Scanning(T: Table, t: Up.Invocation): State { State(T, map[0 := UpThread(t)]) }

  lemma ScanSteps(T: Table, t: Up.Invocation, T': Table, n: Up.Invocation)
    requires Reachable(Scanning(T, t)) && Up.Steps(T, t, T', Some(n))
    ensures Reachable(Scanning(T', n))
  {
    hide Up.Steps;
    assert map[0 := UpThread(t)][0 := UpThread(n)] == map[0 := UpThread(n)];
    NextReachable(Scanning(T, t), StepUp(0, Some(n)), Scanning(T', n));
  }

  /** Both halves of a join can be in. */
  lemma ReadyReachable() returns (s: State)
    ensures Reachable(s) && Ready(s.table, 2) && 1 !in s.threads
  {
    var T := UploadIsCompleted();
    hide Reachable;
    var read := Up.ScanRead(5, 2, 4, Clean, true, true);
    var put := Up.ScanPut(5, 2, 4, Clean, true, true);
    var summary := Up.Summary(5, 2, 4, Clean, true);
    var T' := PutScan(T, 2, 4, Clean, true);
    assert map[][0 := UpThread(read)] == map[0 := UpThread(read)];
    NextReachable(Idle(T), SpawnUp(0, 5, read), Scanning(T, read));
    ScanSteps(T, read, T, put);
    ScanSteps(T, put, T', summary);
    s := Scanning(T', summary);
  }

  /** There is a run in which an upload has both halves in and nobody has acted, and it goes on to one
      in which the upload has left VALIDATING. */
  lemma JoinHappens() returns (b': seq<State>, ls': seq<Label>, i: nat)
    ensures Run(b', ls') && i < |ls'| && |b'| == |ls'| + 1
    ensures Ready(b'[i].table, 2) && Left(b'[|ls'|].table, 2)
  {
    hide *;
    var b, ls := ReadyRun();
    i := |ls|;
    NeverStuck(b, ls, i, 2, 1);
    var signal :| signal in b[i].table.pending && Leaves(b[i], 2, 1, signal, 12);
    b', ls' := Extended(b, ls, 2, 1, signal, 12);
    Apart(b'[i].table, b'[|ls'|].table, 2);
    assert b'[i] == b[i];
  }

  lemma Apart(T: Table, T': Table, u: Id)
    ensures Ready(T, u) && Left(T', u) ==> T != T'
  {
  }

  lemma ReadyRun() returns (b: seq<State>, ls: seq<Label>)
    ensures Run(b, ls) && |b| == |ls| + 1 && Ready(b[|ls|].table, 2) && 1 !in b[|ls|].threads
  {
    var s := ReadyReachable();
    hide Run, Ready;
    b, ls :| Run(b, ls) && |b| == |ls| + 1 && b[|ls|] == s;
  }

  lemma {:induction false} Extended(b: seq<State>, ls: seq<Label>, u: Id, tid: nat, signal: Id, k: nat)
    returns (b': seq<State>, ls': seq<Label>)
    requires Run(b, ls) && |b| == |ls| + 1 && Leaves(b[|ls|], u, tid, signal, k)
    ensures Run(b', ls') && |b'| == |ls'| + 1 && b <= b' && Left(b'[|ls'|].table, u)
    decreases k
  {
    if Left(b[|ls|].table, u) {
      b', ls' := b, ls;
    } else {
      var l, m :| Solo(l, tid, signal) && Does(b[|ls|], l, m) && Leaves(m, u, tid, signal, k - 1);
      RunLonger(b, ls, l, m);
      hide Run, Does, Leaves;
      b', ls' := Extended(b + [m], ls + [l], u, tid, signal, k - 1);
    }
  }

  lemma RunLonger(b: seq<State>, ls: seq<Label>, l: Label, s': State)
    requires Run(b, ls) && |b| == |ls| + 1 && Does(b[|ls|], l, s')
    ensures Run(b + [s'], ls + [l])
  {
    hide Does;
    var b', ls' := b + [s'], ls + [l];
    forall i | 0 <= i < |ls'| ensures Does(b'[i], ls'[i], b'[i + 1]) {
      if i < |ls| { assert b'[i] == b[i] && b'[i + 1] == b[i + 1] && ls'[i] == ls[i]; }
    }
  }
}
