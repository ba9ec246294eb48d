/** Loans over whole runs: HEAD, instances, archives and outbox agree, and a committed manifest can
    always be read back. */
module Loans {
  import opened Records
  import opened Writes
  import opened Invariant
  import opened Preservation
  import opened System
  import opened History
  import opened Events
  import opened Claims
  import Api = LoanApi

  // -------------------------------------------------------------- conservation

  function HeadCount(H: Head): nat { if H.current.Some? then 1 else 0 }

  /** The instances a loan has ever had. */
  function InstancesOf(T: Table, l: LoanKey): set<Id> {
    set i | i in T.instances && T.instances[i].loan == l
  }

  lemma LoanHolds(T: Table, l: LoanKey)
    requires Inv(T) && l in T.heads
    ensures HeadOk(T, l)
    ensures forall n: nat :: (l, n) in T.loanArchives ==> LoanArchiveOk(T, (l, n))
  {
    forall n: nat | (l, n) in T.loanArchives ensures LoanArchiveOk(T, (l, n)) {}
  }

  lemma InstanceHolds(T: Table, i: Id)
    requires Inv(T) && i in T.instances
    ensures InstanceOk(T, i)
  {
  }

  lemma ArchiveHolds(T: Table, l: LoanKey, n: nat)
    requires Inv(T) && (l, n) in T.loanArchives
    ensures LoanArchiveOk(T, (l, n)) && l in T.heads && 1 <= n <= T.heads[l].lastArchive
  {
  }

  lemma EventHolds(T: Table, e: Id)
    requires Inv(T) && e in T.outbox
    ensures EventOk(T, e)
  {
  }

  /** The instances archived under sequences 1..last, in that order. */
  ghost function Retirees(T: Table, l: LoanKey): seq<Id>
    requires l in T.heads && HeadOk(T, l)
  {
    seq(T.heads[l].lastArchive, k requires 0 <= k < T.heads[l].lastArchive => T.loanArchives[(l, k + 1)].instance)
  }

  lemma RetireesDistinct(T: Table, l: LoanKey)
    requires Inv(T) && l in T.heads && HeadOk(T, l)
    ensures forall i, j :: 0 <= i < j < |Retirees(T, l)| ==> Retirees(T, l)[i] != Retirees(T, l)[j]
    ensures |Elements(Retirees(T, l))| == T.heads[l].lastArchive
  {
    LoanHolds(T, l);
    hide Inv;
    var r := Retirees(T, l);
    forall i, j | 0 <= i < j < |r| ensures r[i] != r[j] {
      assert LoanArchiveOk(T, (l, i + 1)) && LoanArchiveOk(T, (l, j + 1));
    }
    DistinctCount(r);
  }

  lemma InstancesCount(T: Table, l: LoanKey)
    requires Inv(T) && l in T.heads && HeadOk(T, l)
    ensures |InstancesOf(T, l)| == T.heads[l].lastArchive + HeadCount(T.heads[l])
  {
    RetireesDistinct(T, l);
    var r, H := Elements(Retirees(T, l)), T.heads[l];
    var now := if H.current.Some? then {H.current.value} else {};
    forall i | i in InstancesOf(T, l) ensures i in r + now { Accounted(T, l, i); }
    forall i | i in r ensures i in InstancesOf(T, l) && i !in now { Retired(T, l, i); }
    assert InstancesOf(T, l) == r + now;
  }

  lemma Accounted(T: Table, l: LoanKey, i: Id)
    requires Inv(T) && l in T.heads && HeadOk(T, l) && i in T.instances && T.instances[i].loan == l
    ensures T.heads[l].current == Some(i) || i in Retirees(T, l)
  {
    InstanceHolds(T, i);
    if T.heads[l].current != Some(i) {
      ArchiveHolds(T, l, T.log.archivedAs[i]);
      hide Inv, HeadOk, LoanArchiveOk;
      assert Retirees(T, l)[T.log.archivedAs[i] - 1] == i;
    }
  }

  lemma Retired(T: Table, l: LoanKey, i: Id)
    requires Inv(T) && l in T.heads && HeadOk(T, l) && i in Retirees(T, l)
    ensures i in T.instances && T.instances[i].loan == l && T.heads[l].current != Some(i)
  {
    LoanHolds(T, l);
    var k :| 0 <= k < T.heads[l].lastArchive && Retirees(T, l)[k] == i;
    assert LoanArchiveOk(T, (l, k + 1));
  }

  /** Exactly one event announces the archive. */
  ghost predicate AnnouncedOnce(T: Table, p: (LoanKey, nat), instance: Id) {
    exists e ::
      && e in T.outbox && T.outbox[e] == OutboxEvent(p.0, instance, p.1)
      && forall x :: x in T.outbox && T.outbox[x].loan == p.0 && T.outbox[x].sequence == p.1 ==> x == e
  }

  lemma Announced(T: Table, l: LoanKey, n: nat)
    requires Inv(T) && (l, n) in T.loanArchives
    ensures AnnouncedOnce(T, (l, n), T.loanArchives[(l, n)].instance)
  {
    assert LoanArchiveOk(T, (l, n));
    var e := T.log.eventOf[(l, n)];
    forall x | x in T.outbox && T.outbox[x].loan == l && T.outbox[x].sequence == n ensures x == e {
      EventHolds(T, x);
    }
  }

  /** Loan conservation, under any racing creates and archives. Instances ever created = archives +
      the current one, and the revision counts every create and archive; at most one instance is
      ACTIVE, and it is HEAD's; archives are exactly 1..last, over distinct instances, with one
      outbox event each. */
  lemma LoanConservation(b: seq<State>, ls: seq<Label>, i: nat, l: LoanKey)
    requires Run(b, ls) && i <= |ls| && |b| == |ls| + 1 && l in b[i].table.heads
    ensures var T := b[i].table;
      var H := T.heads[l];
      && |InstancesOf(T, l)| == H.lastArchive + HeadCount(H)
      && H.revision == 2 * H.lastArchive + HeadCount(H)
      && (forall x :: x in InstancesOf(T, l) ==> (T.instances[x].active <==> H.current == Some(x)))
      && (H.current.Some? ==> H.current.value in InstancesOf(T, l))
      && (forall n: nat :: (l, n) in T.loanArchives <==> 1 <= n <= H.lastArchive)
      && (forall n: nat :: (l, n) in T.loanArchives ==>
            AnnouncedOnce(T, (l, n), T.loanArchives[(l, n)].instance))
      && (forall m: nat, n: nat :: (l, m) in T.loanArchives && (l, n) in T.loanArchives && m != n ==>
            T.loanArchives[(l, m)].instance != T.loanArchives[(l, n)].instance)
  {
    hide Run, Inv, AnnouncedOnce;
    RunInv(b, ls, i);
    var T := b[i].table;
    LoanHolds(T, l);
    InstancesCount(T, l);
    forall x | x in InstancesOf(T, l) ensures T.instances[x].active <==> T.heads[l].current == Some(x) {
      InstanceHolds(T, x);
    }
    forall n: nat | (l, n) in T.loanArchives
      ensures AnnouncedOnce(T, (l, n), T.loanArchives[(l, n)].instance)
    {
      Announced(T, l, n);
    }
  }

  // ------------------------------------------------------------- reading it back

  datatype LoadProblem = NotFound | Unavailable | ManifestInvalid | ManifestTooLarge
  datatype Loaded = Found(archive: LoanArchive, manifest: Manifest) | Problem(problem: LoadProblem)

  function Ids(documents: seq<ManifestDocument>): set<Id> {
    set m | m in documents :: m.documentId
  }

  /** The checks on a parsed manifest, in the order of the code. */
  function CheckManifest(loan: LoanKey, sequence: nat, A: LoanArchive, m: Manifest): Loaded {
    if !(m.tenant == loan.tenant && m.loanId == loan.loanId && m.instance == A.instance
         && m.sequence == sequence) then Problem(ManifestInvalid)
    else if |m.documents| > MAX_DOCUMENTS then Problem(ManifestTooLarge)
    else if !DistinctIds(m.documents) then Problem(ManifestInvalid)
    else if A.documentCount != |Ids(m.documents)| then Problem(ManifestInvalid)
    else Found(A, m)
  }

  /** What `load_loan_archive` answers. */
  function LoadResult(T: Table, loan: LoanKey, sequence: nat): Loaded {
    if (loan, sequence) !in T.loanArchives then Problem(NotFound)
    else
      var A := T.loanArchives[(loan, sequence)];
      if A.manifest.version !in T.objects || T.objects[A.manifest.version].key != A.manifest.key then
        Problem(Unavailable)
      else
        match T.objects[A.manifest.version].content
        case Body(bytes) =>
          if Sha256(bytes) != A.checksum then Problem(ManifestInvalid)
          else if bytes.length > MAX_MANIFEST_BYTES then Problem(ManifestTooLarge)
          else if bytes.Opaque? then Problem(ManifestInvalid)
          else CheckManifest(loan, sequence, A, bytes.parsed)
        case _ => Problem(ManifestInvalid)
  }

  /** The document loop: true, with every id collected, exactly if no id comes twice. */
  method CollectIds(documents: seq<ManifestDocument>) returns (distinct: bool, ids: set<Id>)
    ensures distinct <==> DistinctIds(documents)
    ensures distinct ==> ids == Ids(documents)
  {
    ids := {};
    for i := 0 to |documents|
      invariant DistinctIds(documents[..i]) && ids == Ids(documents[..i])
    {
      assert documents[..i + 1] == documents[..i] + [documents[i]];
      if documents[i].documentId in ids {
        assert !DistinctIds(documents[..i + 1]);
        assert !DistinctIds(documents);
        return false, ids;
      }
      ids := ids + {documents[i].documentId};
    }
    assert documents[..|documents|] == documents;
    return true, ids;
  }

  /** The bytes are those that the archive row vouches for, and parse to a manifest of this archive with as
      many different documents as the row counts. */
  predicate PassesChecks(loan: LoanKey, sequence: nat, A: LoanArchive, bytes: Bytes) {
    && A.checksum == Sha256(bytes) && bytes.length <= 4 * 1024 * 1024 && bytes.Json?
    && var m := bytes.parsed;
    && m.tenant == loan.tenant && m.loanId == loan.loanId && m.instance == A.instance && m.sequence == sequence
    && |m.documents| <= 500 && A.documentCount == |m.documents|
    && forall i, j :: 0 <= i < j < |m.documents| ==> m.documents[i].documentId != m.documents[j].documentId
  }

  lemma LoadsExactly(T: Table, loan: LoanKey, sequence: nat)
    ensures LoadResult(T, loan, sequence).Found? <==>
      && (loan, sequence) in T.loanArchives
      && var A := T.loanArchives[(loan, sequence)];
      && A.manifest.version in T.objects && T.objects[A.manifest.version].key == A.manifest.key
      && T.objects[A.manifest.version].content.Body?
      && PassesChecks(loan, sequence, A, T.objects[A.manifest.version].content.bytes)
    ensures LoadResult(T, loan, sequence) == Problem(NotFound) <==> (loan, sequence) !in T.loanArchives
  {
    if (loan, sequence) in T.loanArchives {
      var A := T.loanArchives[(loan, sequence)];
      if A.manifest.version in T.objects && T.objects[A.manifest.version].content.Body? {
        var bytes := T.objects[A.manifest.version].content.bytes;
        if bytes.Json? && DistinctIds(bytes.parsed.documents) { IdsCount(bytes.parsed.documents); }
      }
    }
  }

  method LoadLoanArchive(T: Table, loan: LoanKey, sequence: nat) returns (r: Loaded)
    ensures r == LoadResult(T, loan, sequence)
    ensures r == Problem(NotFound) <==> (loan, sequence) !in T.loanArchives
    ensures r.Found? <==>
      && (loan, sequence) in T.loanArchives
      && var A := T.loanArchives[(loan, sequence)];
      && A.manifest.version in T.objects && T.objects[A.manifest.version].key == A.manifest.key
      && T.objects[A.manifest.version].content.Body?
      && PassesChecks(loan, sequence, A, T.objects[A.manifest.version].content.bytes)
    ensures r.Found? ==>
      && r.archive == T.loanArchives[(loan, sequence)]
      && r.manifest == T.objects[r.archive.manifest.version].content.bytes.parsed
  {
    LoadsExactly(T, loan, sequence);
    if (loan, sequence) !in T.loanArchives { return Problem(NotFound); }
    var item := T.loanArchives[(loan, sequence)];
    if item.manifest.version !in T.objects || T.objects[item.manifest.version].key != item.manifest.key {
      return Problem(Unavailable);
    }
    var content := T.objects[item.manifest.version].content;
    if !content.Body? || Sha256(content.bytes) != item.checksum { return Problem(ManifestInvalid); }
    if content.bytes.length > MAX_MANIFEST_BYTES { return Problem(ManifestTooLarge); }
    if content.bytes.Opaque? { return Problem(ManifestInvalid); }
    var m := content.bytes.parsed;
    if m.tenant != loan.tenant || m.loanId != loan.loanId || m.instance != item.instance || m.sequence != sequence {
      return Problem(ManifestInvalid);
    }
    if |m.documents| > MAX_DOCUMENTS { return Problem(ManifestTooLarge); }
    var distinct, ids := CollectIds(m.documents);
    if !distinct || item.documentCount != |ids| { return Problem(ManifestInvalid); }
    return Found(item, m);
  }

  lemma {:induction false} IdsCount(documents: seq<ManifestDocument>)
    requires DistinctIds(documents)
    ensures |Ids(documents)| == |documents|
  {
    if documents != [] {
      var front, last := documents[..|documents| - 1], documents[|documents| - 1];
      assert documents == front + [last];
      IdsCount(front);
      assert last.documentId !in Ids(front);
      assert Ids(documents) == Ids(front) + {last.documentId};
    } else {
      assert Ids(documents) == {};
    }
  }

  /** A row that pins its manifest reads back as that manifest. */
  lemma PinnedLoads(T: Table, loan: LoanKey, n: nat, m: Manifest)
    requires (loan, n) in T.loanArchives && ManifestOk(T, (loan, n), T.loanArchives[(loan, n)], m)
    ensures LoadResult(T, loan, n) == Found(T.loanArchives[(loan, n)], m)
  {
    IdsCount(m.documents);
  }

  // --------------------------------------------------------- the committing attempt

  /** The step commits the archive of `loan` under `n`, having serialized `m`. */
  predicate CommitsArchive(s: State, l: Label, s': State, loan: LoanKey, n: nat, m: Manifest) {
    && TakesEffect(s, l, s')
    && var t := s.threads[l.tid].api;
    t.LoanArchiveTxn? && Api.LoanOf(t.q) == loan && t.manifest == m && m.sequence == n
  }

  lemma CommitLogs(s: State, l: Label, s': State, loan: LoanKey, n: nat, m: Manifest)
    requires Does(s, l, s') && CommitsArchive(s, l, s', loan, n, m)
    ensures (loan, n) in s'.table.log.manifests && s'.table.log.manifests[(loan, n)] == m
  {
    hide PutStored;
    var T, t := s.table, s.threads[l.tid].api;
    ArchiveLoanLogs(T, loan, m.instance, m, t.bytes, t.stored, t.q.identity, Api.HashOf(t.q));
    hide ArchiveLoan;
  }

  lemma ArchiveLoanLogs(
    T: Table, loan: LoanKey, instance: Id, m: Manifest, bytes: Bytes, stored: Ref,
    identity: Identity, hash: RequestHash)
    requires loan in T.heads && instance in T.instances
    ensures ArchiveLoan(T, loan, instance, m, bytes, stored, identity, hash).log.manifests ==
      T.log.manifests[(loan, T.heads[loan].lastArchive + 1) := m]
  {
  }

  lemma LoggedLoads(T: Table, loan: LoanKey, n: nat)
    requires Inv(T) && (loan, n) in T.log.manifests
    ensures (loan, n) in T.loanArchives
    ensures LoadResult(T, loan, n) == Found(T.loanArchives[(loan, n)], T.log.manifests[(loan, n)])
  {
    assert LoanArchiveOk(T, (loan, n));
    hide Inv;
    PinnedLoads(T, loan, n, T.log.manifests[(loan, n)]);
  }

  /** Archive round trip: from the step that commits an archive on, loading its sequence passes every
      check and returns the very manifest that attempt serialized, whatever versions losing
      attempts have put, or will put, at the same key. */
  lemma CommittedLoads(b: seq<State>, ls: seq<Label>, i: nat, j: nat, loan: LoanKey, n: nat, m: Manifest)
    requires Run(b, ls) && i < j <= |ls| && |b| == |ls| + 1
    requires CommitsArchive(b[i], ls[i], b[i + 1], loan, n, m)
    ensures (loan, n) in b[j].table.loanArchives
    ensures LoadResult(b[j].table, loan, n) == Found(b[j].table.loanArchives[(loan, n)], m)
  {
    hide Run, Inv, Does, Evolves, CommitsArchive, LoadResult;
    RunDoes(b, ls, i);
    RunInv(b, ls, j);
    RunEvolves(b, ls, i + 1, j);
    CommitLogs(b[i], ls[i], b[i + 1], loan, n, m);
    EvolvesParts(b[i + 1].table, b[j].table);
    hide UploadsEvolve, DocumentsEvolve, RowsEvolve, StoresExtend;
    LoggedLoads(b[j].table, loan, n);
  }

  lemma CommitFound(s: State, l: Label, s': State, loan: LoanKey, n: nat) returns (m: Manifest)
    requires Does(s, l, s') && (loan, n) !in s.table.loanArchives && (loan, n) in s'.table.loanArchives
    ensures CommitsArchive(s, l, s', loan, n, m)
  {
    StepWrites(s, l, s');
    var T, t := s.table, s.threads[l.tid].api;
    RetiredRow(T, Api.LoanOf(t.q), t.manifest.instance, t.manifest, t.bytes, t.stored, t.q.identity, Api.HashOf(t.q));
    hide ArchiveLoan;
    m := t.manifest;
  }

  lemma RetiredRow(
    T: Table, loan: LoanKey, instance: Id, m: Manifest, bytes: Bytes, stored: Ref,
    identity: Identity, hash: RequestHash)
    requires loan in T.heads && instance in T.instances
    ensures var T' := ArchiveLoan(T, loan, instance, m, bytes, stored, identity, hash);
      var p := (loan, T.heads[loan].lastArchive + 1);
      T'.loanArchives == T.loanArchives[p := T'.loanArchives[p]]
  {
  }

  /** And nothing else is ever found: what loads was serialized by a step that committed it, so
      a sequence never committed is NOT_FOUND. */
  lemma {:induction false} LoadsOnlyCommitted(b: seq<State>, ls: seq<Label>, j: nat, loan: LoanKey, n: nat)
    requires Run(b, ls) && j <= |ls| && |b| == |ls| + 1 && LoadResult(b[j].table, loan, n) != Problem(NotFound)
    ensures exists i, m :: 0 <= i < j && CommitsArchive(b[i], ls[i], b[i + 1], loan, n, m)
                           && LoadResult(b[j].table, loan, n) == Found(b[j].table.loanArchives[(loan, n)], m)
  {
    var i, m := CommitIndex(b, ls, j, loan, n);
    hide Run, CommitsArchive, LoadResult;
    CommittedLoads(b, ls, i, j, loan, n, m);
  }

  lemma {:induction false} CommitIndex(b: seq<State>, ls: seq<Label>, j: nat, loan: LoanKey, n: nat)
    returns (i: nat, m: Manifest)
    requires Run(b, ls) && j <= |ls| && |b| == |ls| + 1 && (loan, n) in b[j].table.loanArchives
    ensures i < j && CommitsArchive(b[i], ls[i], b[i + 1], loan, n, m)
  {
    hide Run, CommitsArchive, Does;
    if j == 0 {
      RunEmpty(b, ls);
    } else if (loan, n) in b[j - 1].table.loanArchives {
      i, m := CommitIndex(b, ls, j - 1, loan, n);
    } else {
      i := j - 1;
      RunDoes(b, ls, i);
      m := CommitFound(b[i], ls[i], b[j], loan, n);
    }
  }
}
