/** What whole runs guarantee about events: provenance, fencing, at-most-once effects. */
module Events {
  import opened Records
  import opened Writes
  import opened Invariant
  import opened Preservation
  import opened System
  import opened History
  import Api = LoanApi

  // ------------------------------------------------------------- clean versions

  lemma CleanGrows(s: State, l: Label, s': State, u: Id, version: Id)
    requires Does(s, l, s') && (u, version) in s'.table.log.clean && (u, version) !in s.table.log.clean
    ensures RecordsClean(s, l, u, version)
  {
    hide *;
    if Commits(s, l, s') { CommitKeepsClean(s, l, s'); }
    else if RecordsScan(s, l) { ScanGrowsClean(s, l, s', u, version); }
    else if Issues(s, l) { IssueKeepsClean(s, l, s'); }
    else { OtherKeepsClean(s, l, s'); }
  }

  lemma CommitKeepsClean(s: State, l: Label, s': State)
    requires Does(s, l, s') && Commits(s, l, s')
    ensures s'.table.log.clean == s.table.log.clean
  {
    hide Does, Commits, CommittedBy;
    CommitWrites(s, l, s');
  }

  lemma ScanGrowsClean(s: State, l: Label, s': State, u: Id, version: Id)
    requires Does(s, l, s') && RecordsScan(s, l)
    requires (u, version) in s'.table.log.clean && (u, version) !in s.table.log.clean
    ensures RecordsClean(s, l, u, version)
  {
    hide Does;
    ScanWrites(s, l, s');
  }

  lemma IssueKeepsClean(s: State, l: Label, s': State)
    requires Does(s, l, s') && Issues(s, l)
    ensures s'.table.log.clean == s.table.log.clean
  {
    hide Does, IssuesValidation, IssuesPostprocess;
    if l.StepUp? { ValidationWrites(s, l, s', s.threads[l.tid].up.u); }
    else { PostprocessWrites(s, l, s', s.threads[l.tid].idp.r.d); }
  }

  lemma OtherKeepsClean(s: State, l: Label, s': State)
    requires Does(s, l, s') && !RecordsScan(s, l) && !Issues(s, l) && !Commits(s, l, s')
    ensures s'.table.log.clean == s.table.log.clean
  {
    hide Does, RecordsScan, Issues, Commits, TakesEffect, Bystands;
    StepUnlogged(s, l, s');
  }

  /** The scanner reported this version clean and complete. */
  predicate Reported(T: Table, u: Id, version: Id, signal: Id) {
    signal in T.signals && T.signals[signal] == GuardDuty(u, version, true, Some(Clean))
  }

  /** The step records this version clean, on the scanner's own report of it. */
  predicate RecordsCleanReport(s: State, l: Label, u: Id, version: Id) {
    RecordsClean(s, l, u, version) && Reported(s.table, u, version, s.threads[l.tid].up.signal)
  }

  lemma RecordedFromReport(s: State, l: Label, u: Id, version: Id)
    requires Good(s) && RecordsClean(s, l, u, version)
    ensures Reported(s.table, u, version, s.threads[l.tid].up.signal)
  {
    assert ThreadOk(s.table, s.threads[l.tid]);
    hide Inv;
  }

  /** "Clean" is never more than what the scanner said: some earlier step recorded it, for exactly
      this version, on a COMPLETED report of exactly this version. */
  lemma {:induction false} CleanWasReported(b: seq<State>, ls: seq<Label>, i: nat, u: Id, version: Id)
    requires Run(b, ls) && i <= |ls| && |b| == |ls| + 1 && (u, version) in b[i].table.log.clean
    ensures exists k :: 0 <= k < i && RecordsCleanReport(b[k], ls[k], u, version)
  {
    hide *;
    if i == 0 {
      NothingCleanYet(b, ls);
    } else if (u, version) in b[i - 1].table.log.clean {
      CleanWasReported(b, ls, i - 1, u, version);
    } else {
      RunDoes(b, ls, i - 1);
      RunGood(b, ls, i - 1);
      NewlyClean(b[i - 1], ls[i - 1], b[i], u, version);
    }
  }

  lemma NothingCleanYet(b: seq<State>, ls: seq<Label>)
    requires Run(b, ls)
    ensures |b| == |ls| + 1 && b[0].table.log.clean == {}
  {
    RunEmpty(b, ls);
  }

  lemma NewlyClean(s: State, l: Label, s': State, u: Id, version: Id)
    requires Good(s) && Does(s, l, s')
    requires (u, version) in s'.table.log.clean && (u, version) !in s.table.log.clean
    ensures RecordsCleanReport(s, l, u, version)
  {
    hide Good, Does, Reported, RecordsClean;
    CleanGrows(s, l, s', u, version);
    RecordedFromReport(s, l, u, version);
  }

  lemma RunInv(b: seq<State>, ls: seq<Label>, i: nat)
    requires Run(b, ls) && i <= |ls|
    ensures |b| == |ls| + 1 && Inv(b[i].table)
  {
    RunGood(b, ls, i);
    hide Run, Inv;
  }

  lemma RunEmpty(b: seq<State>, ls: seq<Label>)
    requires Run(b, ls)
    ensures |b| == |ls| + 1 && b[0] == State(EMPTY_TABLE, map[])
  {
  }

  // -------------------------------------------------------------------- fencing

  /** The token of the last validation lease issued on `u` in the first `i` steps. */
  function LastValidation(b: seq<State>, ls: seq<Label>, i: nat, u: Id): Option<Id>
    requires i <= |ls| && |b| == |ls| + 1
  {
    if i == 0 then None
    else if IssuesValidation(b[i - 1], ls[i - 1], u) then Some(b[i - 1].table.next)
    else LastValidation(b, ls, i - 1, u)
  }

  /** The token of the last postprocessing lease issued on `d` in the first `i` steps. */
  function LastPostprocess(b: seq<State>, ls: seq<Label>, i: nat, d: Id): Option<Id>
    requires i <= |ls| && |b| == |ls| + 1
  {
    if i == 0 then None
    else if IssuesPostprocess(b[i - 1], ls[i - 1], d) then Some(b[i - 1].table.next)
    else LastPostprocess(b, ls, i - 1, d)
  }

  lemma LeasesStay(s: State, l: Label, s': State)
    requires Does(s, l, s') && !Issues(s, l)
    ensures s'.table.log.validationLease == s.table.log.validationLease
    ensures s'.table.log.postprocessLease == s.table.log.postprocessLease
  {
    hide Does, RecordsScan, Issues, Commits;
    StepUnlogged(s, l, s');
    if Commits(s, l, s') { CommitWrites(s, l, s'); }
    else if RecordsScan(s, l) { ScanWrites(s, l, s'); }
  }

  lemma ValidationStep(s: State, l: Label, s': State, u: Id)
    requires Does(s, l, s')
    ensures Find(s'.table.log.validationLease, u) ==
      (if IssuesValidation(s, l, u) then Some(s.table.next) else Find(s.table.log.validationLease, u))
  {
    hide Does;
    if !Issues(s, l) { LeasesStay(s, l, s'); }
    else if l.StepUp? { ValidationWrites(s, l, s', s.threads[l.tid].up.u); }
    else { PostprocessWrites(s, l, s', s.threads[l.tid].idp.r.d); }
  }

  lemma PostprocessStep(s: State, l: Label, s': State, d: Id)
    requires Does(s, l, s')
    ensures Find(s'.table.log.postprocessLease, d) ==
      (if IssuesPostprocess(s, l, d) then Some(s.table.next) else Find(s.table.log.postprocessLease, d))
  {
    hide Does;
    if !Issues(s, l) { LeasesStay(s, l, s'); }
    else if l.StepUp? { ValidationWrites(s, l, s', s.threads[l.tid].up.u); }
    else { PostprocessWrites(s, l, s', s.threads[l.tid].idp.r.d); }
  }

  lemma {:induction false} LeasesAreLogged(b: seq<State>, ls: seq<Label>, i: nat, u: Id, d: Id)
    requires Run(b, ls) && i <= |ls| && |b| == |ls| + 1
    ensures Find(b[i].table.log.validationLease, u) == LastValidation(b, ls, i, u)
    ensures Find(b[i].table.log.postprocessLease, d) == LastPostprocess(b, ls, i, d)
  {
    hide *;
    LastIssued(b, ls, i, u, d);
    if i == 0 {
      NoneLeased(b, ls, u, d);
    } else {
      LeasesAreLogged(b, ls, i - 1, u, d);
      RunDoes(b, ls, i - 1);
      ValidationStep(b[i - 1], ls[i - 1], b[i], u);
      PostprocessStep(b[i - 1], ls[i - 1], b[i], d);
    }
  }

  lemma NoneLeased(b: seq<State>, ls: seq<Label>, u: Id, d: Id)
    requires Run(b, ls) && |b| == |ls| + 1
    ensures Find(b[0].table.log.validationLease, u) == None && Find(b[0].table.log.postprocessLease, d) == None
  {
    RunEmpty(b, ls);
  }

  lemma LastIssued(b: seq<State>, ls: seq<Label>, i: nat, u: Id, d: Id)
    requires i <= |ls| && |b| == |ls| + 1
    ensures LastValidation(b, ls, i, u) ==
      if i == 0 then None
      else if IssuesValidation(b[i - 1], ls[i - 1], u) then Some(b[i - 1].table.next)
      else LastValidation(b, ls, i - 1, u)
    ensures LastPostprocess(b, ls, i, d) ==
      if i == 0 then None
      else if IssuesPostprocess(b[i - 1], ls[i - 1], d) then Some(b[i - 1].table.next)
      else LastPostprocess(b, ls, i - 1, d)
  {
    hide IssuesValidation, IssuesPostprocess;
  }

  lemma LeaseIsLast(s: State, c: Committed)
    requires Good(s)
    ensures c.upload in s.table.uploads && Holds(s.table.uploads[c.upload].lease, c.token) ==>
      Find(s.table.log.validationLease, c.upload) == Some(c.token)
    ensures c.document in s.table.documents && Holds(s.table.documents[c.document].lease, c.token) ==>
      Find(s.table.log.postprocessLease, c.document) == Some(c.token)
  {
    if c.upload in s.table.uploads { UploadHolds(s.table, c.upload); }
    if c.document in s.table.documents { DocumentHolds(s.table, c.document); }
    hide Inv;
  }

  /** Fencing: QUEUED is committed only under the most recently issued validation lease of the
      upload, EXTRACTING and SUCCEEDED only under the most recent postprocessing lease of the
      document. A holder whose lease was taken over can commit nothing. */
  lemma CommitsAreFenced(b: seq<State>, ls: seq<Label>, i: nat)
    requires Run(b, ls) && i < |ls| && |b| == |ls| + 1 && Commits(b[i], ls[i], b[i + 1])
    ensures var c := CommittedBy(b[i], ls[i], b[i + 1]);
      Some(c.token) == if c.kind.ToQueued? then LastValidation(b, ls, i, c.upload)
                       else LastPostprocess(b, ls, i, c.document)
  {
    RunDoes(b, ls, i);
    RunGood(b, ls, i);
    hide Run, Good, Does, Commits, CommittedBy;
    CommitWrites(b[i], ls[i], b[i + 1]);
    var c := CommittedBy(b[i], ls[i], b[i + 1]);
    LeaseIsLast(b[i], c);
    LeasesAreLogged(b, ls, i, c.upload, c.document);
  }

  /** Each of QUEUED, EXTRACTING and SUCCEEDED is committed at most once per run id. */
  lemma CommittedOnce(b: seq<State>, ls: seq<Label>, i: nat, j: nat)
    requires Run(b, ls) && i < j < |ls| && |b| == |ls| + 1
    requires Commits(b[i], ls[i], b[i + 1]) && Commits(b[j], ls[j], b[j + 1])
    ensures var c, c' := CommittedBy(b[i], ls[i], b[i + 1]), CommittedBy(b[j], ls[j], b[j + 1]);
      c.kind != c'.kind || c.run != c'.run
  {
    hide *;
    RunDoes(b, ls, i);
    RunDoes(b, ls, j);
    RunInv(b, ls, j + 1);
    RunEvolves(b, ls, i + 1, j);
    CommitWrites(b[i], ls[i], b[i + 1]);
    CommitWrites(b[j], ls[j], b[j + 1]);
    var c, c' := CommittedBy(b[i], ls[i], b[i + 1]), CommittedBy(b[j], ls[j], b[j + 1]);
    CommitsApart(b[i].table, b[i + 1].table, b[j].table, b[j + 1].table, c, c');
  }

  lemma CommitsApart(T0: Table, T1: Table, T2: Table, T3: Table, c: Committed, c': Committed)
    requires CommitWritten(T0, T1, c) && Evolves(T1, T2) && CommitWritten(T2, T3, c') && Inv(T3)
    ensures c.kind != c'.kind || c.run != c'.run
  {
    EvolvesParts(T1, T2);
    assert CommitsOk(T3);
    var i, j := |T0.log.commits|, |T2.log.commits|;
    hide Inv, Evolves;
    assert T3.log.commits[i] == T1.log.commits[i];
  }

  // ---------------------------------------------------------- at-most-once effects

  function EffectIdentity(s: State, l: Label): Identity
    requires ApiAt(s, l)
  {
    s.threads[l.tid].api.q.identity
  }

  lemma BornSame(T: Table, d: Id, D: Document, u: Id, next: Id)
    ensures Born(T, d, D, u, next).idempotency == T.idempotency
  {
  }

  lemma LoanSame(T: Table, loan: LoanKey)
    ensures Activated(T, loan).idempotency == T.idempotency
  {
  }

  lemma CompletedSame(T: Table, d: Id, u: Id, version: Id)
    requires d in T.documents && u in T.uploads
    ensures Completed(T, d, u, version).idempotency == T.idempotency
  {
  }

  lemma BuriedSame(T: Table, d: Id, seen: Document)
    requires d in T.documents && seen.currentUpload.Some?
    ensures Buried(T, d, seen).idempotency == T.idempotency
  {
  }

  lemma RetiredSame(T: Table, loan: LoanKey, instance: Id, m: Manifest, bytes: Bytes, stored: Ref)
    requires loan in T.heads && instance in T.instances
    ensures Retired(T, loan, instance, m, bytes, stored).idempotency == T.idempotency
  {
  }

  /** The call's transaction stored exactly one reply, the one it goes on to send, under an
      identity that had none. */
  ghost predicate StoredOne(T: Table, t: Api.Call, T': Table, n: Option<Api.Call>) {
    && t.q.identity !in T.idempotency
    && n.Some? && (n.value.Respond? || n.value.Invoke?) && n.value.q == t.q
    && T'.idempotency == T.idempotency[t.q.identity := Records.Stored(Api.HashOf(t.q), n.value.body)]
  }

  lemma LoanStored(T: Table, t: Api.Call, T': Table, n: Option<Api.Call>)
    requires t.LoanTxn? && Api.OpeningSteps(T, t, T', n) && T' != T
    ensures StoredOne(T, t, T', n)
  {
    LoanSame(T, Api.LoanOf(t.q));
    hide Activated;
  }

  lemma ReplaceStored(T: Table, t: Api.Call, T': Table, n: Option<Api.Call>)
    requires t.DocumentTxn? && t.q.identity.path.UploadsPath? && Api.OpeningSteps(T, t, T', n) && T' != T
    ensures StoredOne(T, t, T', n)
  {
    var d := t.q.identity.path.document;
    BornSame(T, d, Renewed(T.documents[d], T.next), T.next, T.next + 1);
    ReplaceIs(T, d, t.q.identity, Api.HashOf(t.q));
    hide Born, Replace;
  }

  lemma CreateStored(T: Table, t: Api.Call, T': Table, n: Option<Api.Call>)
    requires t.DocumentTxn? && !t.q.identity.path.UploadsPath? && Api.OpeningSteps(T, t, T', n) && T' != T
    ensures StoredOne(T, t, T', n)
  {
    BornSame(T, T.next, NewDocument(t.instance, T.next + 1), T.next + 1, T.next + 2);
    CreateDocumentIs(T, t.instance, t.q.identity, Api.HashOf(t.q));
    hide Born, CreateDocument;
  }

  lemma CompletingStored(T: Table, t: Api.Call, T': Table, n: Option<Api.Call>)
    requires (t.CompleteTxn? || t.AlreadyTxn? || t.ArchiveTxn?) && Api.CompletingSteps(T, t, T', n) && T' != T
    ensures StoredOne(T, t, T', n)
  {
    if t.CompleteTxn? {
      CompletedSame(T, t.q.identity.path.document, t.q.identity.path.upload, t.version);
    } else if t.ArchiveTxn? {
      BuriedSame(T, t.q.identity.path.document, t.seen);
    }
    hide Completed, Buried;
  }

  lemma CollectingStored(T: Table, t: Api.Call, T': Table, n: Option<Api.Call>)
    requires t.LoanArchiveTxn? && Api.CollectingSteps(T, t, T', n) && T' != T
    ensures StoredOne(T, t, T', n)
  {
    RetiredSame(T, Api.LoanOf(t.q), t.manifest.instance, t.manifest, t.bytes, t.stored);
    hide Retired;
  }

  lemma TransactionStored(T: Table, t: Api.Call, T': Table, n: Option<Api.Call>)
    requires Api.Steps(T, t, T', n) && Transacts(t) && T' != T
    ensures StoredOne(T, t, T', n)
  {
    hide Api.OpeningSteps, Api.CompletingSteps, Api.CollectingSteps, Api.ReplySteps, StoredOne;
    if t.LoanTxn? { LoanStored(T, t, T', n); }
    else if t.DocumentTxn? && t.q.identity.path.UploadsPath? { ReplaceStored(T, t, T', n); }
    else if t.DocumentTxn? { CreateStored(T, t, T', n); }
    else if Api.Completing(t) { CompletingStored(T, t, T', n); }
    else { CollectingStored(T, t, T', n); }
  }

  lemma EffectStored(s: State, l: Label, s': State)
    requires Does(s, l, s') && TakesEffect(s, l, s')
    ensures StoredOne(s.table, s.threads[l.tid].api, s'.table, l.apiNext)
  {
    hide Api.Steps, StoredOne;
    TransactionStored(s.table, s.threads[l.tid].api, s'.table, l.apiNext);
  }

  /** For one idempotency identity at most one transaction ever takes effect, however many
      attempts race. */
  lemma EffectOnce(b: seq<State>, ls: seq<Label>, i: nat, j: nat)
    requires Run(b, ls) && i < j < |ls| && |b| == |ls| + 1
    requires TakesEffect(b[i], ls[i], b[i + 1]) && TakesEffect(b[j], ls[j], b[j + 1])
    ensures EffectIdentity(b[i], ls[i]) != EffectIdentity(b[j], ls[j])
  {
    hide Run, Does, Evolves, TakesEffect;
    RunDoes(b, ls, i);
    RunDoes(b, ls, j);
    RunEvolves(b, ls, i + 1, j);
    EffectStored(b[i], ls[i], b[i + 1]);
    EffectStored(b[j], ls[j], b[j + 1]);
    EvolvesParts(b[i + 1].table, b[j].table);
    hide UploadsEvolve, DocumentsEvolve, RowsEvolve, LogExtends;
  }

  lemma StoredByEffect(s: State, l: Label, s': State, x: Identity)
    requires Does(s, l, s') && x in s'.table.idempotency && x !in s.table.idempotency
    ensures TakesEffect(s, l, s') && EffectIdentity(s, l) == x
  {
    hide Does, TakesEffect;
    StepUnlogged(s, l, s');
    if TakesEffect(s, l, s') { EffectStored(s, l, s'); }
  }

  lemma {:induction false} StoredWasEffect(b: seq<State>, ls: seq<Label>, i: nat, x: Identity)
    requires Run(b, ls) && i <= |ls| && |b| == |ls| + 1 && x in b[i].table.idempotency
    ensures exists k :: 0 <= k < i && TakesEffect(b[k], ls[k], b[k + 1]) && EffectIdentity(b[k], ls[k]) == x
  {
    if i == 0 {
      RunEmpty(b, ls);
    } else if x in b[i - 1].table.idempotency {
      StoredWasEffect(b, ls, i - 1, x);
    } else {
      RunDoes(b, ls, i - 1);
      StoredByEffect(b[i - 1], ls[i - 1], b[i], x);
    }
  }

  function ReplyOf(s: State, l: Label): Reply
    requires Responds(s, l)
  {
    var t := s.threads[l.tid].api;
    Reply(t.q.identity, Api.HashOf(t.q), t.body)
  }

  lemma RespondsStored(s: State, l: Label)
    requires Good(s) && Responds(s, l)
    ensures var r := ReplyOf(s, l);
      Find(s.table.idempotency, r.identity) == Some(Records.Stored(r.hash, r.body)) && BodyTrue(s.table, r.body)
  {
    assert ThreadOk(s.table, s.threads[l.tid]);
    assert RepliesOk(s.table);
  }

  lemma RepliesAgreeIn(s: State, l: Label, s': State, l': Label)
    requires Good(s) && Responds(s, l) && Good(s') && Responds(s', l') && Evolves(s.table, s'.table)
    requires ReplyOf(s, l).identity == ReplyOf(s', l').identity
    ensures ReplyOf(s, l) == ReplyOf(s', l')
  {
    hide Good, Evolves;
    RespondsStored(s, l);
    RespondsStored(s', l');
    EvolvesParts(s.table, s'.table);
    hide UploadsEvolve, DocumentsEvolve, RowsEvolve, LogExtends, BodyTrue;
  }

  /** Successful replies to one identity all carry the same request hash and the same body, and
      there is a single transaction behind them, which went through before any of them. */
  lemma RepliesAgree(b: seq<State>, ls: seq<Label>, i: nat, j: nat)
    requires Run(b, ls) && i <= j < |ls| && |b| == |ls| + 1 && Responds(b[i], ls[i]) && Responds(b[j], ls[j])
    requires ReplyOf(b[i], ls[i]).identity == ReplyOf(b[j], ls[j]).identity
    ensures ReplyOf(b[i], ls[i]) == ReplyOf(b[j], ls[j])
    ensures exists k :: 0 <= k < i && TakesEffect(b[k], ls[k], b[k + 1])
                        && EffectIdentity(b[k], ls[k]) == ReplyOf(b[i], ls[i]).identity
  {
    hide Run, Good, Evolves, Responds, ReplyOf, TakesEffect, BodyTrue, EffectIdentity, ApiAt;
    RunGood(b, ls, i);
    RunGood(b, ls, j);
    RunEvolves(b, ls, i, j);
    RepliesAgreeIn(b[i], ls[i], b[j], ls[j]);
    RespondsStored(b[i], ls[i]);
    StoredWasEffect(b, ls, i, ReplyOf(b[i], ls[i]).identity);
  }

  lemma CompletionsAgreeIn(s: State, l: Label, s': State, l': Label)
    requires Good(s) && Responds(s, l) && Good(s') && Responds(s', l') && Evolves(s.table, s'.table)
    requires ReplyOf(s, l).body.UploadCompleted? && ReplyOf(s', l').body.UploadCompleted?
    requires ReplyOf(s, l).body.upload == ReplyOf(s', l').body.upload
    ensures ReplyOf(s, l).body.run == ReplyOf(s', l').body.run
    ensures ReplyOf(s, l).body.document == ReplyOf(s', l').body.document
  {
    hide Good, Evolves, Responds, ReplyOf;
    RespondsStored(s, l);
    RespondsStored(s', l');
    UploadAdvances(s.table, s'.table, ReplyOf(s, l).body.upload);
    GoodUpload(s, ReplyOf(s, l).body.upload);
  }

  lemma GoodUpload(s: State, u: Id)
    requires Good(s) && u in s.table.uploads
    ensures UploadOk(s.table, u)
  {
    UploadHolds(s.table, u);
  }

  /** All completions of one upload, under any identities, name one processing run. */
  lemma CompletionsAgree(b: seq<State>, ls: seq<Label>, i: nat, j: nat)
    requires Run(b, ls) && i <= j < |ls| && |b| == |ls| + 1 && Responds(b[i], ls[i]) && Responds(b[j], ls[j])
    requires ReplyOf(b[i], ls[i]).body.UploadCompleted? && ReplyOf(b[j], ls[j]).body.UploadCompleted?
    requires ReplyOf(b[i], ls[i]).body.upload == ReplyOf(b[j], ls[j]).body.upload
    ensures ReplyOf(b[i], ls[i]).body.run == ReplyOf(b[j], ls[j]).body.run
  {
    hide Run, Good, Evolves, Responds, ReplyOf;
    RunGood(b, ls, i);
    RunGood(b, ls, j);
    RunEvolves(b, ls, i, j);
    CompletionsAgreeIn(b[i], ls[i], b[j], ls[j]);
  }
}
