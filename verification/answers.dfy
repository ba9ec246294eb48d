/** Every stored or sent reply answers the request it is stored for: its body has the kind of the
    route and names the loan, document and upload of the path. */
module Answers {
  import opened Records
  import opened Writes
  import opened System
  import opened History
  import opened Events
  import Up = UploadProcessor
  import Idp = IdpPostprocessor
  import Api = LoanApi

  predicate Fits(path: Path, hash: RequestHash, body: ReplyBody) {
    hash.path == path
    && match path
       case LoansPath => body.LoanCreated? && body.loan == hash.body.loan
       case DocumentsPath(_) => body.UploadSession?
       case UploadsPath(_, d) => body.UploadSession? && body.document == d
       case CompletePath(_, d, u) => body.UploadCompleted? && body.document == d && body.upload == u
       case ArchiveDocumentPath(_, d) => body.DocumentArchived? && body.document == d
       case ArchiveLoanPath(loan) => body.LoanArchived? && body.loan == loan
  }

  predicate FitsCall(q: Api.Request, body: ReplyBody) {
    Fits(q.identity.path, Api.HashOf(q), body)
  }

  /** The route of a call, and the reply it carries, fit its program point. */
  predicate OnPath(t: Api.Call) {
    match t
    case LoanTxn(q) => q.identity.path.LoansPath?
    case DocumentTxn(q, _) => q.identity.path.DocumentsPath? || q.identity.path.UploadsPath?
    case ReadUpload(q) => q.identity.path.CompletePath?
    case AlreadyTxn(q, body) => FitsCall(q, body)
    case ArchiveTxn(q, _) => q.identity.path.ArchiveDocumentPath?
    case Query(q, _, _, _, _) => q.identity.path.ArchiveLoanPath?
    case ManifestPut(q, _, _, _) => q.identity.path.ArchiveLoanPath?
    case LoanArchiveTxn(q, _, _, _) => q.identity.path.ArchiveLoanPath?
    case Renew(q, body) => FitsCall(q, body)
    case Invoke(q, body) => FitsCall(q, body)
    case Respond(q, body) => FitsCall(q, body)
    case _ => true
  }

  ghost predicate StoredFit(T: Table) {
    forall x :: x in T.idempotency ==> Fits(x.path, T.idempotency[x].hash, T.idempotency[x].body)
  }

  ghost predicate AllFit(s: State) {
    && StoredFit(s.table)
    && forall tid :: tid in s.threads && s.threads[tid].ApiThread? ==> OnPath(s.threads[tid].api)
  }

  lemma OpeningOnPath(T: Table, t: Api.Call, T': Table, n: Option<Api.Call>)
    requires Api.Opening(t) && Api.OpeningSteps(T, t, T', n) && n.Some? && OnPath(t) && StoredFit(T)
    ensures OnPath(n.value)
  {
    hide CreateLoan, CreateDocument, Replace, CanCreateLoan, CanCreateDocument, CanReplace;
  }

  lemma CompletingOnPath(T: Table, t: Api.Call, T': Table, n: Option<Api.Call>)
    requires Api.Completing(t) && Api.CompletingSteps(T, t, T', n) && n.Some? && OnPath(t)
    ensures OnPath(n.value)
  {
    hide CompleteUpload, ArchiveDocument, PutStored;
  }

  lemma CollectingOnPath(T: Table, t: Api.Call, T': Table, n: Option<Api.Call>)
    requires Api.Collecting(t) && Api.CollectingSteps(T, t, T', n) && n.Some? && OnPath(t)
    ensures OnPath(n.value)
  {
    hide ArchiveLoan;
  }

  lemma ReplyOnPath(T: Table, t: Api.Call, T': Table, n: Option<Api.Call>)
    requires t.Recover? || t.Renew? || t.Invoke? || t.Respond?
    requires Api.ReplySteps(T, t, T', n) && n.Some? && OnPath(t) && StoredFit(T)
    ensures OnPath(n.value)
  {
  }

  lemma CallOnPath(T: Table, t: Api.Call, T': Table, n: Option<Api.Call>)
    requires Api.Steps(T, t, T', n) && n.Some? && OnPath(t) && StoredFit(T)
    ensures OnPath(n.value)
  {
    hide Api.OpeningSteps, Api.CompletingSteps, Api.CollectingSteps, Api.ReplySteps, OnPath, StoredFit;
    if Api.Opening(t) { OpeningOnPath(T, t, T', n); }
    else if Api.Completing(t) { CompletingOnPath(T, t, T', n); }
    else if Api.Collecting(t) { CollectingOnPath(T, t, T', n); }
    else { ReplyOnPath(T, t, T', n); }
  }

  lemma EffectFits(T: Table, t: Api.Call, T': Table, n: Option<Api.Call>)
    requires StoredOne(T, t, T', n) && OnPath(n.value) && StoredFit(T)
    ensures StoredFit(T')
  {
  }

  lemma CallFits(s: State, l: Label, s': State)
    requires Does(s, l, s') && AllFit(s) && l.StepApi?
    ensures AllFit(s')
  {
    StepUnlogged(s, l, s');
    hide Api.Steps, OnPath;
    var t := s.threads[l.tid].api;
    assert OnPath(t);
    if l.apiNext.Some? { CallOnPath(s.table, t, s'.table, l.apiNext); }
    if TakesEffect(s, l, s') {
      EffectStored(s, l, s');
      EffectFits(s.table, t, s'.table, l.apiNext);
    }
  }

  lemma BeginOnPath(t: Api.Call)
    requires t.Begin?
    ensures OnPath(t)
  {
  }

  lemma OtherFits(s: State, l: Label, s': State)
    requires Does(s, l, s') && AllFit(s) && !l.StepApi?
    ensures AllFit(s')
  {
    SameStored(s, l, s');
    if l.SpawnApi? { BeginOnPath(l.api); }
    hide Up.Steps, Idp.Steps, Api.Steps, OnPath, Fits;
  }

  lemma SameStored(s: State, l: Label, s': State)
    requires Does(s, l, s') && !l.StepApi?
    ensures s'.table.idempotency == s.table.idempotency
  {
    hide Does;
    StepUnlogged(s, l, s');
  }

  lemma FirstFits(b: seq<State>, ls: seq<Label>)
    requires Run(b, ls) && |b| == |ls| + 1
    ensures AllFit(b[0])
  {
    RunEmpty(b, ls);
  }

  lemma {:induction false} RunFits(b: seq<State>, ls: seq<Label>, i: nat)
    requires Run(b, ls) && i <= |ls| && |b| == |ls| + 1
    ensures AllFit(b[i])
  {
    hide *;
    if i == 0 {
      FirstFits(b, ls);
    } else {
      RunFits(b, ls, i - 1);
      RunDoes(b, ls, i - 1);
      if ls[i - 1].StepApi? { CallFits(b[i - 1], ls[i - 1], b[i]); }
      else { OtherFits(b[i - 1], ls[i - 1], b[i]); }
    }
  }

  /** A reply that is sent answers its own request. */
  lemma RepliesFit(b: seq<State>, ls: seq<Label>, i: nat)
    requires Run(b, ls) && i < |ls| && |b| == |ls| + 1 && Responds(b[i], ls[i])
    ensures var r := ReplyOf(b[i], ls[i]);
      Fits(r.identity.path, r.hash, r.body)
  {
    RunFits(b, ls, i);
    hide Run;
    assert OnPath(b[i].threads[ls[i].tid].api);
  }

  /** However an upload is completed, by whichever identities, attempts and retries, every
      successful reply names the same processing run. */
  lemma OneRunPerUpload(b: seq<State>, ls: seq<Label>, i: nat, j: nat)
    requires Run(b, ls) && i <= j < |ls| && |b| == |ls| + 1 && Responds(b[i], ls[i]) && Responds(b[j], ls[j])
    requires ReplyOf(b[i], ls[i]).identity.path.CompletePath? && ReplyOf(b[j], ls[j]).identity.path.CompletePath?
    requires ReplyOf(b[i], ls[i]).identity.path.upload == ReplyOf(b[j], ls[j]).identity.path.upload
    ensures ReplyOf(b[i], ls[i]).body.UploadCompleted? && ReplyOf(b[j], ls[j]).body.UploadCompleted?
    ensures ReplyOf(b[i], ls[i]).body.run == ReplyOf(b[j], ls[j]).body.run
  {
    hide Run, Responds, ReplyOf;
    RepliesFit(b, ls, i);
    RepliesFit(b, ls, j);
    CompletionsAgree(b, ls, i, j);
  }
}
