/** A run in which a document that a loan's instance has when its archive commits is missing from the
    committed manifest. `Manifests.ManifestComplete` tells exactly which steps can bring that about. */
module LateDocument {
  import opened Records
  import opened Writes
  import opened System
  import opened Loans
  import opened Manifests
  import opened Journey
  import Api = LoanApi

  const EMPTY: Manifest := Manifest(0, 0, 0, 1, [])
  const BYTES: Bytes := Json(EMPTY, 2)

  function Archive(): Api.Request { Ask(ArchiveLoanPath(LOAN)) }
  function Create(): Api.Request { Ask(DocumentsPath(LOAN)) }

  function Serialized(T: Table): Table {
    PutObject(T, Object(ManifestKey(0, 1), Body(BYTES), None))
  }

  function Created(T: Table): Table {
    CreateDocument(T, 0, Create().identity, Api.HashOf(Create()))
  }

  /** The archiving call up to its transaction: the loan has no document yet. */
  lemma ArchiveSteps(T: Table)
    requires HasLoan(T)
    ensures var q := Archive();
      && Api.Steps(T, Api.Begin(q), T, Some(Api.ReadHead(q)))
      && Api.Steps(T, Api.ReadHead(q), T, Some(Api.Query(q, 0, 0, {}, [])))
      && Api.Steps(T, Api.Query(q, 0, 0, {}, []), T, Some(Api.ManifestPut(q, 0, 0, [])))
      && Api.Steps(T, Api.ManifestPut(q, 0, 0, []), Serialized(T),
                   Some(Api.LoanArchiveTxn(q, EMPTY, BYTES, Ref(ManifestKey(0, 1), 1))))
  {
    assert Api.InstanceDocuments(T, 0) == {};
  }

  ghost predicate StillOpen(T: Table) {
    && HeadIs(T, LOAN, 0) && T.heads[LOAN].lastArchive == 0 && T.next == 2
    && T.idempotency.Keys == {Identity(0, LoansPath, 0)} && 0 in T.instances && T.instances[0].active
    && T.documents == map[] && T.uploads == map[] && T.loanArchives == map[]
  }

  lemma StillOpenAfter(T: Table)
    requires HasLoan(T)
    ensures StillOpen(Serialized(T))
  {
  }

  /** Another call creates a document, in the same instance. */
  lemma CreateSteps(T: Table)
    requires StillOpen(T)
    ensures var q := Create();
      && Api.Steps(T, Api.Begin(q), T, Some(Api.ReadHead(q)))
      && Api.Steps(T, Api.ReadHead(q), T, Some(Api.DocumentTxn(q, 0)))
      && Api.Steps(T, Api.DocumentTxn(q, 0), Created(T), Some(Api.Respond(q, UploadSession(2, 3))))
  {
    hide CreateDocument;
  }

  lemma CreatedFacts(T: Table)
    requires StillOpen(T)
    ensures var T', q := Created(T), Archive();
      && 2 in T'.documents && T'.documents[2].instance == 0
      && CanArchiveLoan(T', LOAN, 0, 0, q.identity)
      && LOAN in T'.heads && 0 in T'.instances && T'.heads[LOAN].lastArchive == 0
  {
    CreateDocumentIs(T, 0, Create().identity, Api.HashOf(Create()));
    hide CreateDocument;
  }

  function Committed(T: Table): Table {
    if LOAN in T.heads && 0 in T.instances then
      ArchiveLoan(T, LOAN, 0, EMPTY, BYTES, Ref(ManifestKey(0, 1), 1), Archive().identity, Api.HashOf(Archive()))
    else T
  }

  lemma CommitSteps(T: Table)
    requires CanArchiveLoan(T, LOAN, 0, 0, Archive().identity) && 0 in T.instances && LOAN in T.heads
    ensures Api.Steps(T, Api.LoanArchiveTxn(Archive(), EMPTY, BYTES, Ref(ManifestKey(0, 1), 1)), Committed(T),
                      Some(Api.Respond(Archive(), LoanArchived(LOAN, 0, 1, 0))))
    ensures Committed(T) != T
  {
    hide Writes.Retired;
    assert Archive().identity in Committed(T).idempotency;
  }

  lemma Alone(t: Api.Call, n: Api.Call)
    ensures map[0 := ApiThread(t)][0 := ApiThread(n)] == map[0 := ApiThread(n)]
  {
  }

  /** The archiving call waits before its commit. */
  lemma Waits() returns (T: Table)
    ensures Reachable(Calling(T, Api.LoanArchiveTxn(Archive(), EMPTY, BYTES, Ref(ManifestKey(0, 1), 1))))
    ensures StillOpen(T)
  {
    var T0 := Journey.LoanCreated();
    ArchiveSteps(T0);
    StillOpenAfter(T0);
    hide *;
    var q := Archive();
    T := Serialized(T0);
    CallBegins(T0, q);
    CallSteps(T0, Api.Begin(q), T0, Api.ReadHead(q));
    CallSteps(T0, Api.ReadHead(q), T0, Api.Query(q, 0, 0, {}, []));
    CallSteps(T0, Api.Query(q, 0, 0, {}, []), T0, Api.ManifestPut(q, 0, 0, []));
    CallSteps(T0, Api.ManifestPut(q, 0, 0, []), T,
              Api.LoanArchiveTxn(q, EMPTY, BYTES, Ref(ManifestKey(0, 1), 1)));
  }

  function Both(T: Table, t0: Api.Call, t1: Api.Call): State {
    State(T, map[0 := ApiThread(t0), 1 := ApiThread(t1)])
  }

  lemma SecondBegins(T: Table, t0: Api.Call, q: Api.Request)
    requires Reachable(Calling(T, t0))
    ensures Reachable(Both(T, t0, Api.Begin(q)))
  {
    hide Reachable;
    var t := Api.Begin(q);
    Spawns(Calling(T, t0), SpawnApi(1, t), 1, ApiThread(t));
    assert map[0 := ApiThread(t0)][1 := ApiThread(t)] == map[0 := ApiThread(t0), 1 := ApiThread(t)];
  }

  lemma SecondSteps(T: Table, t0: Api.Call, t: Api.Call, T': Table, n: Api.Call)
    requires Reachable(Both(T, t0, t)) && Api.Steps(T, t, T', Some(n))
    ensures Reachable(Both(T', t0, n))
  {
    hide Reachable, Api.Steps;
    ApiMoves(Both(T, t0, t), 1, t, T', n);
    assert map[0 := ApiThread(t0), 1 := ApiThread(t)][1 := ApiThread(n)]
      == map[0 := ApiThread(t0), 1 := ApiThread(n)];
  }

  /** The document exists when the archive that lacks it is about to commit. */
  lemma BothReachable() returns (T: Table)
    ensures Reachable(Both(T, Api.LoanArchiveTxn(Archive(), EMPTY, BYTES, Ref(ManifestKey(0, 1), 1)),
                           Api.Respond(Create(), UploadSession(2, 3))))
    ensures 2 in T.documents && T.documents[2].instance == 0
    ensures CanArchiveLoan(T, LOAN, 0, 0, Archive().identity) && 0 in T.instances && LOAN in T.heads
  {
    var T0 := Waits();
    CreateSteps(T0);
    CreatedFacts(T0);
    hide *;
    var t0, q := Api.LoanArchiveTxn(Archive(), EMPTY, BYTES, Ref(ManifestKey(0, 1), 1)), Create();
    T := Created(T0);
    SecondBegins(T0, t0, q);
    SecondSteps(T0, t0, Api.Begin(q), T0, Api.ReadHead(q));
    SecondSteps(T0, t0, Api.ReadHead(q), T0, Api.DocumentTxn(q, 0));
    SecondSteps(T0, t0, Api.DocumentTxn(q, 0), T, Api.Respond(q, UploadSession(2, 3)));
  }

  lemma CommitFollows(T: Table, t1: Api.Call) returns (l: Label, s': State)
    requires CanArchiveLoan(T, LOAN, 0, 0, Archive().identity) && 0 in T.instances && LOAN in T.heads
    ensures var s := Both(T, Api.LoanArchiveTxn(Archive(), EMPTY, BYTES, Ref(ManifestKey(0, 1), 1)), t1);
      Does(s, l, s') && CommitsArchive(s, l, s', LOAN, 1, EMPTY)
  {
    hide *;
    var q := Archive();
    var t0, n := Api.LoanArchiveTxn(q, EMPTY, BYTES, Ref(ManifestKey(0, 1), 1)), Api.Respond(q, LoanArchived(LOAN, 0, 1, 0));
    var s := Both(T, t0, t1);
    l := StepApi(0, Some(n));
    s' := State(Committed(T), s.threads[0 := ApiThread(n)]);
    CommitSteps(T);
    OnTable(T, t0, t1);
    ApiDoes(s, 0, t0, Committed(T), n);
    IsCommit(T, t1, l, s');
  }

  lemma IsCommit(T: Table, t1: Api.Call, l: Label, s': State)
    requires l.StepApi? && l.tid == 0 && s'.table != T
    ensures CommitsArchive(Both(T, Api.LoanArchiveTxn(Archive(), EMPTY, BYTES, Ref(ManifestKey(0, 1), 1)), t1), l, s',
                           LOAN, 1, EMPTY)
  {
  }

  lemma Missed(T: Table)
    requires 2 in T.documents && T.documents[2].instance == 0
    ensures !ListsAll(T, EMPTY)
  {
    assert !Api.Lists(EMPTY.documents, 2);
  }

  /** A committed manifest can lack a document that its instance has at the commit. */
  lemma LateDocumentMissed() returns (b: seq<State>, ls: seq<Label>, i: nat)
    ensures Run(b, ls) && |b| == |ls| + 1 && i < |ls|
    ensures CommitsArchive(b[i], ls[i], b[i + 1], LOAN, 1, EMPTY) && !ListsAll(b[i].table, EMPTY)
  {
    var T := BothReachable();
    var t0, t1 := Api.LoanArchiveTxn(Archive(), EMPTY, BYTES, Ref(ManifestKey(0, 1), 1)),
                  Api.Respond(Create(), UploadSession(2, 3));
    var s := Both(T, t0, t1);
    hide Run, CanArchiveLoan;
    var b0, ls0 :| Run(b0, ls0) && |b0| == |ls0| + 1 && b0[|ls0|] == s;
    hide *;
    Missed(T);
    var l, s' := CommitFollows(T, t1);
    RunLonger(b0, ls0, l, s');
    b, ls, i := b0 + [s'], ls0 + [l], |ls0|;
    assert b[i] == s && b[i + 1] == s';
    OnTable(T, t0, t1);
  }

  lemma OnTable(T: Table, t0: Api.Call, t1: Api.Call)
    ensures Both(T, t0, t1).table == T
    ensures 0 in Both(T, t0, t1).threads && Both(T, t0, t1).threads[0] == ApiThread(t0)
  {
  }
}
