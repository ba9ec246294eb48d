/** What a committed loan manifest contains. The query behind it is paginated, and other calls may
    create documents while it runs, so completeness is told by two steps of the committing call
    itself: the one that read HEAD and the one that listed its last document. */
module Manifests {
  import opened Records
  import opened Writes
  import opened Invariant
  import opened Preservation
  import opened System
  import opened History
  import opened Events
  import opened Claims
  import opened Loans
  import Api = LoanApi

  function InstanceOf(t: Api.Call): Id
    requires Api.Collecting(t)
  {
    if t.LoanArchiveTxn? then t.manifest.instance else t.instance
  }

  function SequenceOf(t: Api.Call): nat
    requires Api.Collecting(t)
  {
    if t.LoanArchiveTxn? then t.manifest.sequence else t.last + 1
  }

  function ListedBy(t: Api.Call): seq<ManifestDocument>
    requires Api.Collecting(t)
  {
    if t.LoanArchiveTxn? then t.manifest.documents else t.listed
  }

  // ------------------------------------------------------------- one call's steps

  /** Step `k` is the call's own read of HEAD, which starts its query. */
  ghost predicate ReadsHead(
    b: seq<State>, ls: seq<Label>, k: nat, tid: nat, q: Api.Request, instance: Id, n: nat, owed: set<Id>)
  {
    && k < |ls| && k < |b| && tid in b[k].threads && b[k].threads[tid] == ApiThread(Api.ReadHead(q)) && n >= 1
    && ls[k] == StepApi(tid, Some(Api.Query(q, instance, n - 1, owed, [])))
    && HeadIs(b[k].table, Api.LoanOf(q), instance) && b[k].table.heads[Api.LoanOf(q)].lastArchive == n - 1
    && owed == Api.InstanceDocuments(b[k].table, instance)
  }

  /** Step `e` leaves the call's list as `listed`, and every document on it existed by then. */
  ghost predicate LeavesList(
    b: seq<State>, ls: seq<Label>, e: nat, tid: nat, q: Api.Request, instance: Id, n: nat, owed: set<Id>,
    listed: seq<ManifestDocument>)
  {
    && e < |ls| && e < |b| && n >= 1
    && ls[e] == StepApi(tid, Some(Api.Query(q, instance, n - 1, owed, listed)))
    && forall x :: 0 <= x < |listed| ==>
         listed[x].documentId in b[e].table.documents
         && b[e].table.documents[listed[x].documentId].instance == instance
  }

  /** Thread `tid` is at work on request `q`, past its read of HEAD. */
  predicate InCall(s: State, tid: nat, q: Api.Request) {
    tid in s.threads && s.threads[tid].ApiThread? && Api.Collecting(s.threads[tid].api) && s.threads[tid].api.q == q
  }

  /** The entry is a document of the instance, field by field as its row stood at `T`. */
  predicate SnapshotAt(T: Table, instance: Id, m: ManifestDocument) {
    && m.documentId in T.documents
    && var D := T.documents[m.documentId];
    && D.instance == instance && m.status == D.status && m.upload == D.currentUpload && m.run == D.run
    && m.source == D.source && m.selected == D.selected && m.dataPoints == D.dataPoints
  }

  ghost predicate Snapshots(b: seq<State>, k: nat, e: nat, instance: Id, listed: seq<ManifestDocument>) {
    forall x :: 0 <= x < |listed| ==> exists y :: k <= y <= e && y < |b| && SnapshotAt(b[y].table, instance, listed[x])
  }

  predicate NoneBlocking(listed: seq<ManifestDocument>) {
    forall x :: 0 <= x < |listed| ==> !Api.Blocking(listed[x].status)
  }

  /** From its step `k` on, the call has been collecting; its last document was listed at step `e`. */
  ghost predicate Window(
    b: seq<State>, ls: seq<Label>, k: nat, e: nat, i: nat, tid: nat, q: Api.Request, instance: Id, n: nat,
    owed: set<Id>, listed: seq<ManifestDocument>)
  {
    && k <= e < i <= |ls| && |b| == |ls| + 1
    && ReadsHead(b, ls, k, tid, q, instance, n, owed)
    && LeavesList(b, ls, e, tid, q, instance, n, owed, listed)
    && (forall x :: k < x <= i ==> InCall(b[x], tid, q))
    && Snapshots(b, k, e, instance, listed)
  }

  lemma WindowLater(
    b: seq<State>, ls: seq<Label>, k: nat, e: nat, i: nat, tid: nat, q: Api.Request, instance: Id, n: nat,
    owed: set<Id>, listed: seq<ManifestDocument>)
    requires Window(b, ls, k, e, i, tid, q, instance, n, owed, listed) && i < |ls| && InCall(b[i + 1], tid, q)
    ensures Window(b, ls, k, e, i + 1, tid, q, instance, n, owed, listed)
  {
    hide ReadsHead, LeavesList, InCall, Snapshots;
  }

  lemma WindowOpens(b: seq<State>, ls: seq<Label>, i: nat, tid: nat, t: Api.Call, n: Api.Call)
    requires i < |ls| && |b| == |ls| + 1 && tid in b[i].threads && b[i].threads[tid] == ApiThread(t)
    requires ls[i] == StepApi(tid, Some(n)) && t.ReadHead? && n.Query? && InCall(b[i + 1], tid, n.q)
    requires Api.OpeningSteps(b[i].table, t, b[i + 1].table, Some(n))
    ensures n.q == t.q
    ensures Window(b, ls, i, i, i + 1, tid, t.q, InstanceOf(n), SequenceOf(n), n.owed, ListedBy(n))
  {
    hide InCall;
    assert ReadsHead(b, ls, i, tid, t.q, InstanceOf(n), SequenceOf(n), n.owed);
  }

  lemma WindowLists(b: seq<State>, ls: seq<Label>, k: nat, e: nat, i: nat, tid: nat, t: Api.Call, n: Api.Call)
    requires t.Query? && n.Query? && i < |ls| && ls[i] == StepApi(tid, Some(n)) && |b| == |ls| + 1
    requires Window(b, ls, k, e, i, tid, t.q, InstanceOf(t), SequenceOf(t), t.owed, ListedBy(t))
    requires Api.CollectingSteps(b[i].table, t, b[i + 1].table, Some(n)) && InCall(b[i + 1], tid, t.q)
    requires forall d :: d in b[e].table.documents ==>
      d in b[i].table.documents && b[i].table.documents[d].instance == b[e].table.documents[d].instance
    ensures Window(b, ls, k, i, i + 1, tid, t.q, InstanceOf(n), SequenceOf(n), t.owed, ListedBy(n))
    ensures n.owed == t.owed && n.q == t.q
  {
    hide ReadsHead, LeavesList, InCall, SnapshotAt, Snapshots, Api.CollectingSteps;
    NextListed(b[i].table, t, b[i + 1].table, n);
    SnapshotsGrow(b, k, e, i, t.instance, t.listed, n.listed[|t.listed|]);
    ListLonger(b, ls, e, i, tid, t, n);
  }

  lemma ListLonger(b: seq<State>, ls: seq<Label>, e: nat, i: nat, tid: nat, t: Api.Call, n: Api.Call)
    requires t.Query? && n.Query? && e <= i < |ls| && ls[i] == StepApi(tid, Some(n)) && |b| == |ls| + 1
    requires LeavesList(b, ls, e, tid, t.q, t.instance, t.last + 1, t.owed, t.listed)
    requires n == Api.Query(t.q, t.instance, t.last, t.owed, n.listed) && |n.listed| == |t.listed| + 1
    requires n.listed[..|t.listed|] == t.listed && SnapshotAt(b[i].table, t.instance, n.listed[|t.listed|])
    requires forall d :: d in b[e].table.documents ==>
      d in b[i].table.documents && b[i].table.documents[d].instance == b[e].table.documents[d].instance
    ensures LeavesList(b, ls, i, tid, t.q, t.instance, t.last + 1, t.owed, n.listed)
  {
    forall x | 0 <= x < |n.listed|
      ensures n.listed[x].documentId in b[i].table.documents
              && b[i].table.documents[n.listed[x].documentId].instance == t.instance
    {
      if x < |t.listed| { assert n.listed[x] == t.listed[x]; }
    }
  }

  lemma SnapshotsGrow(
    b: seq<State>, k: nat, e: nat, i: nat, instance: Id, listed: seq<ManifestDocument>, m: ManifestDocument)
    requires Snapshots(b, k, e, instance, listed) && k <= e <= i < |b| && SnapshotAt(b[i].table, instance, m)
    ensures Snapshots(b, k, i, instance, listed + [m])
  {
    hide SnapshotAt;
    var more := listed + [m];
    forall x | 0 <= x < |more|
      ensures exists y :: k <= y <= i && y < |b| && SnapshotAt(b[y].table, instance, more[x])
    {
      if x < |listed| {
        assert more[x] == listed[x];
        var y :| k <= y <= e && y < |b| && SnapshotAt(b[y].table, instance, listed[x]);
      }
    }
  }

  /** One more document on the list, as its row is now. */
  lemma NextListed(T: Table, t: Api.Call, T': Table, n: Api.Call)
    requires t.Query? && n.Query? && Api.CollectingSteps(T, t, T', Some(n))
    ensures n == Api.Query(t.q, t.instance, t.last, t.owed, n.listed)
    ensures |n.listed| == |t.listed| + 1 && n.listed[..|t.listed|] == t.listed
    ensures n.listed == t.listed + [n.listed[|t.listed|]]
    ensures var m := n.listed[|t.listed|];
      SnapshotAt(T, t.instance, m) && m.documentId in T.documents && T.documents[m.documentId].instance == t.instance
  {
  }

  /** What else the call knows at its program point. */
  predicate Done(t: Api.Call, owed: set<Id>)
    requires Api.Collecting(t)
  {
    if t.Query? then t.owed == owed
    else (forall d :: d in owed ==> Api.Lists(ListedBy(t), d)) && NoneBlocking(ListedBy(t)) && SequenceOf(t) >= 1
  }

  lemma WindowCloses(T: Table, t: Api.Call, T': Table, n: Api.Call)
    requires (t.Query? && !n.Query?) || t.ManifestPut?
    requires Api.CollectingSteps(T, t, T', Some(n))
    requires t.ManifestPut? ==> exists owed :: Done(t, owed)
    ensures Api.Collecting(n) && n.q == t.q
    ensures InstanceOf(n) == InstanceOf(t) && SequenceOf(n) == SequenceOf(t) && ListedBy(n) == ListedBy(t)
    ensures forall owed :: Done(t, owed) ==> Done(n, owed)
  {
  }

  /** No other step leads into the archiving part of a call. */
  lemma OtherCall(T: Table, t: Api.Call, T': Table, n: Api.Call)
    requires Api.Steps(T, t, T', Some(n)) && !t.ReadHead? && !t.Query? && !t.ManifestPut?
    ensures !Api.Collecting(n)
  {
    hide CreateLoan, CreateDocument, Replace, CompleteUpload, ArchiveDocument, ArchiveLoan, PutStored, PutUpload,
         Send, SendReply, PutObject, CanCreateLoan, CanCreateDocument, CanReplace, CanComplete, CanArchiveDocument,
         CanArchiveLoan;
  }

  lemma OtherThread(s: State, l: Label, s': State, tid: nat)
    requires Does(s, l, s') && tid in s'.threads && s'.threads[tid].ApiThread?
    requires !((l.StepApi? || l.SpawnApi?) && l.tid == tid)
    ensures tid in s.threads && s.threads[tid] == s'.threads[tid]
  {
  }

  lemma DocumentsStay(T: Table, T': Table)
    requires Evolves(T, T')
    ensures forall d :: d in T.documents ==>
      d in T'.documents && T'.documents[d].instance == T.documents[d].instance
  {
    forall d | d in T.documents ensures d in T'.documents && T'.documents[d].instance == T.documents[d].instance {
      DocumentAdvances(T, T', d);
    }
  }

  lemma OwnStep(b: seq<State>, ls: seq<Label>, i: nat, tid: nat)
    requires Run(b, ls) && i < |ls| && |b| == |ls| + 1 && ls[i].StepApi? && ls[i].tid == tid
    requires tid in b[i + 1].threads && b[i + 1].threads[tid].ApiThread?
    ensures tid in b[i].threads && b[i].threads[tid].ApiThread?
    ensures var n := b[i + 1].threads[tid].api;
      ls[i] == StepApi(tid, Some(n)) && Api.Steps(b[i].table, b[i].threads[tid].api, b[i + 1].table, Some(n))
  {
    RunDoes(b, ls, i);
    hide Run, Api.Steps;
  }

  /** One step inside a call that is already collecting. */
  lemma NextWindow(
    b: seq<State>, ls: seq<Label>, k: nat, e: nat, i: nat, tid: nat, t: Api.Call, n: Api.Call, owed: set<Id>)
    returns (e': nat)
    requires Run(b, ls) && i < |ls| && ls[i] == StepApi(tid, Some(n)) && |b| == |ls| + 1
    requires Api.Collecting(t) && Done(t, owed)
    requires Window(b, ls, k, e, i, tid, t.q, InstanceOf(t), SequenceOf(t), owed, ListedBy(t))
    requires Api.CollectingSteps(b[i].table, t, b[i + 1].table, Some(n))
    requires Api.Collecting(n) && InCall(b[i + 1], tid, n.q)
    ensures Window(b, ls, k, e', i + 1, tid, n.q, InstanceOf(n), SequenceOf(n), owed, ListedBy(n)) && Done(n, owed)
  {
    hide Run, Evolves, Window, InCall;
    if t.Query? && n.Query? {
      WindowEdge(b, ls, k, e, i, tid, t.q, InstanceOf(t), SequenceOf(t), owed, ListedBy(t));
      RunEvolves(b, ls, e, i);
      DocumentsStay(b[e].table, b[i].table);
      WindowLists(b, ls, k, e, i, tid, t, n);
      e' := i;
    } else {
      WindowCloses(b[i].table, t, b[i + 1].table, n);
      WindowLater(b, ls, k, e, i, tid, t.q, InstanceOf(t), SequenceOf(t), owed, ListedBy(t));
      e' := e;
    }
  }

  lemma WindowEdge(
    b: seq<State>, ls: seq<Label>, k: nat, e: nat, i: nat, tid: nat, q: Api.Request, instance: Id, n: nat,
    owed: set<Id>, listed: seq<ManifestDocument>)
    requires Window(b, ls, k, e, i, tid, q, instance, n, owed, listed)
    ensures k <= e < i <= |ls|
  {
  }

  lemma Here(s: State, tid: nat)
    requires tid in s.threads && s.threads[tid].ApiThread? && Api.Collecting(s.threads[tid].api)
    ensures InCall(s, tid, s.threads[tid].api.q)
  {
  }

  lemma CollectingStep(T: Table, t: Api.Call, T': Table, n: Option<Api.Call>)
    requires Api.Collecting(t) && Api.Steps(T, t, T', n)
    ensures Api.CollectingSteps(T, t, T', n)
  {
  }

  lemma OpeningStep(T: Table, t: Api.Call, T': Table, n: Option<Api.Call>)
    requires t.ReadHead? && Api.Steps(T, t, T', n)
    ensures Api.OpeningSteps(T, t, T', n)
  {
  }

  lemma QueryFirst(T: Table, t: Api.Call, T': Table, n: Api.Call)
    requires t.ReadHead? && Api.OpeningSteps(T, t, T', Some(n)) && Api.Collecting(n)
    ensures n.Query? && n.q == t.q && Done(n, n.owed)
  {
  }

  /** Every call that is collecting has its window. */
  lemma {:induction false} RunWindow(b: seq<State>, ls: seq<Label>, i: nat, tid: nat)
    returns (k: nat, e: nat, owed: set<Id>)
    requires Run(b, ls) && i <= |ls| && |b| == |ls| + 1 && tid in b[i].threads && b[i].threads[tid].ApiThread?
    requires Api.Collecting(b[i].threads[tid].api)
    ensures var t := b[i].threads[tid].api;
      Window(b, ls, k, e, i, tid, t.q, InstanceOf(t), SequenceOf(t), owed, ListedBy(t)) && Done(t, owed)
  {
    hide Run, Does, Window, Done, Api.Steps, Api.OpeningSteps, Api.CollectingSteps, InCall;
    if i == 0 {
      RunEmpty(b, ls);
    } else {
      var l, n := ls[i - 1], b[i].threads[tid].api;
      Here(b[i], tid);
      if l.StepApi? && l.tid == tid {
        OwnStep(b, ls, i - 1, tid);
        var t := b[i - 1].threads[tid].api;
        if t.ReadHead? {
          OpeningStep(b[i - 1].table, t, b[i].table, Some(n));
          QueryFirst(b[i - 1].table, t, b[i].table, n);
          WindowOpens(b, ls, i - 1, tid, t, n);
          k, e, owed := i - 1, i - 1, n.owed;
        } else if Api.Collecting(t) {
          k, e, owed := RunWindow(b, ls, i - 1, tid);
          CollectingStep(b[i - 1].table, t, b[i].table, Some(n));
          e := NextWindow(b, ls, k, e, i - 1, tid, t, n, owed);
        } else {
          OtherCall(b[i - 1].table, t, b[i].table, n);
        }
      } else if l.SpawnApi? && l.tid == tid {
        Spawned(b, ls, i - 1, tid);
      } else {
        RunDoes(b, ls, i - 1);
        OtherThread(b[i - 1], l, b[i], tid);
        k, e, owed := RunWindow(b, ls, i - 1, tid);
        WindowLater(b, ls, k, e, i - 1, tid, n.q, InstanceOf(n), SequenceOf(n), owed, ListedBy(n));
      }
    }
  }

  lemma Spawned(b: seq<State>, ls: seq<Label>, i: nat, tid: nat)
    requires Run(b, ls) && i < |ls| && |b| == |ls| + 1 && ls[i].SpawnApi? && ls[i].tid == tid
    ensures tid in b[i + 1].threads && b[i + 1].threads[tid].ApiThread? && b[i + 1].threads[tid].api.Begin?
  {
    RunDoes(b, ls, i);
    hide Run;
  }

  // ------------------------------------------------------------------ completeness

  /** Step `x` creates document `d`. */
  predicate Creates(b: seq<State>, ls: seq<Label>, x: nat, d: Id) {
    && x < |ls| && |b| == |ls| + 1 && d !in b[x].table.documents && d in b[x + 1].table.documents
    && ApiAt(b[x], ls[x]) && b[x].threads[ls[x].tid].api.DocumentTxn?
  }

  /** The manifest lists every document that its instance has. */
  ghost predicate ListsAll(T: Table, m: Manifest) {
    forall d :: d in T.documents && T.documents[d].instance == m.instance ==> Api.Lists(m.documents, d)
  }

  lemma {:induction false} CreatedBetween(b: seq<State>, ls: seq<Label>, k: nat, i: nat, d: Id)
    requires Run(b, ls) && k <= i <= |ls| && |b| == |ls| + 1
    requires d !in b[k].table.documents && d in b[i].table.documents
    ensures exists x :: k <= x < i && Creates(b, ls, x, d)
    decreases i
  {
    hide Run, Inv, Does;
    if d in b[i - 1].table.documents {
      CreatedBetween(b, ls, k, i - 1, d);
    } else {
      RunDoes(b, ls, i - 1);
      RunInv(b, ls, i - 1);
      RunInv(b, ls, i);
      DocumentBirthStep(b[i - 1], ls[i - 1], b[i], d);
      assert Creates(b, ls, i - 1, d);
    }
  }

  /** The committing call and the two steps of its own that bound what it lists: `k`, its read of HEAD,
      when the instance already was the loan's current one under this sequence, and `e`, after which
      its list did not grow. */
  ghost predicate Bounds(
    b: seq<State>, ls: seq<Label>, k: nat, e: nat, i: nat, q: Api.Request, m: Manifest, owed: set<Id>)
  {
    && i < |ls| && |b| == |ls| + 1 && ls[i].StepApi? && InCall(b[i], ls[i].tid, q)
    && Window(b, ls, k, e, i, ls[i].tid, q, m.instance, m.sequence, owed, m.documents)
  }

  lemma CommitCall(b: seq<State>, ls: seq<Label>, i: nat, loan: LoanKey, n: nat, m: Manifest) returns (t: Api.Call)
    requires i < |ls| && |b| == |ls| + 1 && CommitsArchive(b[i], ls[i], b[i + 1], loan, n, m)
    ensures ls[i].StepApi? && ls[i].tid in b[i].threads && b[i].threads[ls[i].tid] == ApiThread(t)
    ensures t.LoanArchiveTxn? && t.manifest == m && m.sequence == n && Api.LoanOf(t.q) == loan
  {
    t := b[i].threads[ls[i].tid].api;
  }

  lemma OwedListed(
    b: seq<State>, ls: seq<Label>, k: nat, e: nat, i: nat, q: Api.Request, m: Manifest, owed: set<Id>, d: Id)
    requires Bounds(b, ls, k, e, i, q, m, owed) && (forall x :: x in owed ==> Api.Lists(m.documents, x))
    requires k < |b| && d in b[k].table.documents && b[k].table.documents[d].instance == m.instance
    ensures Api.Lists(m.documents, d)
  {
  }

  lemma ListedExist(
    b: seq<State>, ls: seq<Label>, k: nat, e: nat, i: nat, q: Api.Request, m: Manifest, owed: set<Id>, d: Id)
    requires Bounds(b, ls, k, e, i, q, m, owed) && Api.Lists(m.documents, d)
    ensures e < |b| && d in b[e].table.documents
  {
  }

  /** What a committed manifest lists, told by its own call. Every document that the instance has at the
      commit is listed, or was created after the call had read HEAD (`k`); nothing is listed that was
      created after the call had listed its last document (`e`). Each entry is a document of the
      instance as it stood at some moment in between, and none was incomplete or processing then. */
  lemma ManifestWindow(b: seq<State>, ls: seq<Label>, i: nat, loan: LoanKey, n: nat, m: Manifest)
    returns (k: nat, e: nat, q: Api.Request, owed: set<Id>)
    requires Run(b, ls) && i < |ls| && |b| == |ls| + 1 && CommitsArchive(b[i], ls[i], b[i + 1], loan, n, m)
    ensures Bounds(b, ls, k, e, i, q, m, owed) && k <= e < i && Api.LoanOf(q) == loan && m.sequence == n
    ensures forall d :: d in b[i].table.documents && b[i].table.documents[d].instance == m.instance ==>
      Api.Lists(m.documents, d) || exists x :: k <= x < i && Creates(b, ls, x, d)
    ensures forall d, x :: e <= x && Creates(b, ls, x, d) ==> !Api.Lists(m.documents, d)
    ensures Snapshots(b, k, e, m.instance, m.documents) && NoneBlocking(m.documents)
    ensures forall x :: 0 <= x < |m.documents| ==>
      m.documents[x].status in {Succeeded, Hold, Rejected, Failed, Archived}
  {
    var t := CommitCall(b, ls, i, loan, n, m);
    hide Run, CommitsArchive, Evolves, InCall;
    q := t.q;
    k, e, owed := RunWindow(b, ls, i, ls[i].tid);
    Here(b[i], ls[i].tid);
    hide ReadsHead, LeavesList, Snapshots;
    forall d | d in b[i].table.documents && b[i].table.documents[d].instance == m.instance
      ensures Api.Lists(m.documents, d) || exists x :: k <= x < i && Creates(b, ls, x, d)
    {
      if d in b[k].table.documents {
        RunEvolves(b, ls, k, i);
        DocumentsStay(b[k].table, b[i].table);
        OwedListed(b, ls, k, e, i, q, m, owed, d);
      } else {
        CreatedBetween(b, ls, k, i, d);
      }
    }
    forall d, x | e <= x && Creates(b, ls, x, d) ensures !Api.Lists(m.documents, d) {
      NeverListed(b, ls, k, e, i, q, m, owed, d, x);
    }
  }

  lemma NeverListed(
    b: seq<State>, ls: seq<Label>, k: nat, e: nat, i: nat, q: Api.Request, m: Manifest, owed: set<Id>, d: Id, x: nat)
    requires Run(b, ls) && Bounds(b, ls, k, e, i, q, m, owed) && e <= x && Creates(b, ls, x, d)
    ensures !Api.Lists(m.documents, d)
  {
    hide Run, Evolves;
    if Api.Lists(m.documents, d) {
      ListedExist(b, ls, k, e, i, q, m, owed, d);
      RunEvolves(b, ls, e, x);
      DocumentsStay(b[e].table, b[x].table);
    }
  }

  /** So the manifest is complete at its commit if no document of the instance was created after the
      call's read of HEAD, in particular if nobody else moved in between; and it is not if one was
      created after the call's last listing. */
  lemma ManifestComplete(b: seq<State>, ls: seq<Label>, i: nat, loan: LoanKey, n: nat, m: Manifest)
    returns (k: nat, e: nat, q: Api.Request, owed: set<Id>)
    requires Run(b, ls) && i < |ls| && |b| == |ls| + 1 && CommitsArchive(b[i], ls[i], b[i + 1], loan, n, m)
    ensures Bounds(b, ls, k, e, i, q, m, owed) && k <= e < i
    ensures (forall x, d :: k <= x < i && Creates(b, ls, x, d) ==> !OfInstance(b, i, d, m.instance)) ==>
      ListsAll(b[i].table, m)
    ensures (forall x :: k <= x < i ==> ls[x].StepApi? && ls[x].tid == ls[i].tid) ==> ListsAll(b[i].table, m)
    ensures (exists x, d :: e <= x < i && Creates(b, ls, x, d) && OfInstance(b, i, d, m.instance)) ==>
      !ListsAll(b[i].table, m)
  {
    k, e, q, owed := ManifestWindow(b, ls, i, loan, n, m);
    hide Run, CommitsArchive;
    if forall x :: k <= x < i ==> ls[x].StepApi? && ls[x].tid == ls[i].tid {
      forall x, d | k <= x < i ensures !Creates(b, ls, x, d) { AloneCreatesNothing(b, ls, k, e, i, q, m, owed, x, d); }
    }
  }

  predicate OfInstance(b: seq<State>, i: nat, d: Id, instance: Id) {
    i < |b| && d in b[i].table.documents && b[i].table.documents[d].instance == instance
  }

  /** A call's own steps from its read of HEAD to its commit create no document. */
  lemma AloneCreatesNothing(
    b: seq<State>, ls: seq<Label>, k: nat, e: nat, i: nat, q: Api.Request, m: Manifest, owed: set<Id>, x: nat, d: Id)
    requires Bounds(b, ls, k, e, i, q, m, owed) && k <= x < i
    requires ls[x].StepApi? && ls[x].tid == ls[i].tid
    ensures !Creates(b, ls, x, d)
  {
    if x > k { assert InCall(b[x], ls[i].tid, q); }
  }
}
