/** What every state of every run guarantees about documents, uploads, loans and lookups. */
module Claims {
  import opened Records
  import opened Writes
  import opened Invariant
  import opened Preservation
  import opened System
  import opened History
  import opened Events
  import Api = LoanApi

  // ---------------------------------------------------- cross-service agreement

  /** A document and its current upload, written by three services, show the same status, run and
      failure code;
      the one exception is the moment between the two writes of a RUNNING event. */
  lemma CurrentUploadAgrees(b: seq<State>, ls: seq<Label>, i: nat, d: Id)
    requires Run(b, ls) && i <= |ls| && |b| == |ls| + 1
    requires d in b[i].table.documents && b[i].table.documents[d].currentUpload.Some?
    ensures var T := b[i].table;
      var D := T.documents[d];
      && D.currentUpload.value in T.uploads
      && var U := T.uploads[D.currentUpload.value];
      && U.document == d && U.run == D.run && U.failureCode == D.failureCode
      && (U.status == D.status || (D.status.Screening? && U.status.Queued?))
  {
    RunInv(b, ls, i);
    hide Run, Inv;
    DocumentHolds(b[i].table, d);
  }

  /** That moment is real: after the first write of a RUNNING event the document is SCREENING while
      the upload still is QUEUED; the second write makes the upload follow. */
  lemma LagBetweenWrites(T: Table, d: Id, u: Id, run: Id)
    requires d in T.documents && T.documents[d].status.Queued? && T.documents[d].run == Some(run)
    requires u in T.uploads && T.uploads[u].status.Queued? && T.uploads[u].run == Some(run)
    ensures d in AdvanceDocument(T, d, Screen, run).documents
    ensures Lag(AdvanceDocument(T, d, Screen, run).documents[d], T.uploads[u])
    ensures AdvanceDocument(T, d, Screen, run).uploads == T.uploads
    ensures AdvanceUpload(T, u, Screen, run).uploads[u].status.Screening?
  {
  }

  // -------------------------------------------------------------- provenance

  /** The chain from a document's results back to one scanned object version. */
  ghost predicate DerivedFrom(T: Table, D: Document, u: Id, version: Id) {
    && D.source == Some(Ref(SourceKey(u), version)) && Invariant.Stored(T, D.source.value)
    && D.screenInput.Some? && Invariant.Stored(T, D.screenInput.value)
    && T.objects[D.screenInput.value.version].content == CopyOf(version)
    && (D.selected.Some? ==>
          && Invariant.Stored(T, D.selected.value)
          && T.objects[D.selected.value.version].content.PagesOf?
          && T.objects[D.selected.value.version].content.version == version
          && D.fullInput.Some? && Invariant.Stored(T, D.fullInput.value)
          && T.objects[D.fullInput.value.version].content == CopyOf(D.selected.value.version))
    && (D.dataPoints.Some? ==>
          && D.selected.Some? && D.run.Some? && Invariant.Stored(T, D.dataPoints.value)
          && T.objects[D.dataPoints.value.version].content == Extracted(D.run.value))
  }

  lemma DerivedNow(T: Table, d: Id)
    requires Inv(T) && d in T.documents && T.documents[d].currentUpload.Some?
    requires T.documents[d].source.Some? || Admitted(T.documents[d].status)
    ensures var u := T.documents[d].currentUpload.value;
      && u in T.uploads && T.uploads[u].sourceVersion.Some?
      && DerivedFrom(T, T.documents[d], u, T.uploads[u].sourceVersion.value)
      && (u, T.uploads[u].sourceVersion.value) in T.log.clean
  {
    DocumentHolds(T, d);
    UploadHolds(T, T.documents[d].currentUpload.value);
    hide Inv;
  }

  /** Exact-version provenance: a document that reached QUEUED carries the version its upload has
      pinned; an earlier step recorded a COMPLETED clean scan of exactly that version on the
      scanner's report of exactly that version; and its screen input, selected pages, full input
      and data all derive from it. */
  lemma ExactVersionProvenance(b: seq<State>, ls: seq<Label>, i: nat, d: Id)
    requires Run(b, ls) && i <= |ls| && |b| == |ls| + 1
    requires d in b[i].table.documents && b[i].table.documents[d].currentUpload.Some?
    requires b[i].table.documents[d].source.Some? || Admitted(b[i].table.documents[d].status)
    ensures var T := b[i].table;
      var u := T.documents[d].currentUpload.value;
      && u in T.uploads && T.uploads[u].sourceVersion.Some?
      && var version := T.uploads[u].sourceVersion.value;
      && DerivedFrom(T, T.documents[d], u, version)
      && exists k :: 0 <= k < i && RecordsCleanReport(b[k], ls[k], u, version)
  {
    hide Run, Inv, DerivedFrom, RecordsCleanReport, Admitted;
    RunInv(b, ls, i);
    var T := b[i].table;
    DerivedNow(T, d);
    var u := T.documents[d].currentUpload.value;
    CleanWasReported(b, ls, i, u, T.uploads[u].sourceVersion.value);
  }

  /** The same chain for the references that an upload row or an archive row carries. */
  ghost predicate ChainFrom(
    T: Table, u: Id, version: Id, run: Option<Id>, source: Option<Ref>, selected: Option<Ref>, data: Option<Ref>)
  {
    && source == Some(Ref(SourceKey(u), version)) && Invariant.Stored(T, source.value)
    && (selected.Some? ==>
          && Invariant.Stored(T, selected.value)
          && T.objects[selected.value.version].content.PagesOf?
          && T.objects[selected.value.version].content.version == version)
    && (data.Some? ==>
          && selected.Some? && run.Some? && Invariant.Stored(T, data.value)
          && T.objects[data.value.version].content == Extracted(run.value))
  }

  ghost predicate UploadChain(T: Table, u: Id, U: Upload) {
    && U.sourceVersion.Some?
    && ChainFrom(T, u, U.sourceVersion.value, U.run, SourceRef(u, U), U.selected, U.dataPoints)
    && U.screenInput.Some? && Invariant.Stored(T, U.screenInput.value)
    && T.objects[U.screenInput.value.version].content == CopyOf(U.sourceVersion.value)
    && (U.selected.Some? ==>
          && U.fullInput.Some? && Invariant.Stored(T, U.fullInput.value)
          && T.objects[U.fullInput.value.version].content == CopyOf(U.selected.value.version))
  }

  lemma UploadChainNow(T: Table, u: Id)
    requires Inv(T) && u in T.uploads && (T.uploads[u].screenInput.Some? || Admitted(T.uploads[u].status))
    ensures UploadChain(T, u, T.uploads[u]) && (u, T.uploads[u].sourceVersion.value) in T.log.clean
  {
    UploadHolds(T, u);
    hide Inv;
  }

  /** Provenance of every upload that ever reached QUEUED, current, archived or superseded: for the
      rest of the run its artifacts derive from the version it pinned, and before it was queued a
      step had recorded the scanner's COMPLETED clean report of exactly that version. */
  lemma UploadProvenance(b: seq<State>, ls: seq<Label>, j: nat, i: nat, u: Id)
    requires Run(b, ls) && j <= i <= |ls| && |b| == |ls| + 1
    requires u in b[j].table.uploads && Admitted(b[j].table.uploads[u].status)
    ensures u in b[i].table.uploads && UploadChain(b[i].table, u, b[i].table.uploads[u])
    ensures exists k :: 0 <= k < j && RecordsCleanReport(b[k], ls[k], u, b[i].table.uploads[u].sourceVersion.value)
  {
    hide Run, Inv, RecordsCleanReport, Admitted;
    RunInv(b, ls, j);
    RunInv(b, ls, i);
    UploadChainNow(b[j].table, u);
    PinnedOnce(b, ls, j, i, u);
    UploadChainNow(b[i].table, u);
    CleanWasReported(b, ls, j, u, b[j].table.uploads[u].sourceVersion.value);
    hide UploadChain;
  }

  lemma ArchiveChainNow(T: Table, p: (Id, nat))
    requires Inv(T) && p in T.archives
    requires T.archives[p].source.Some? || T.archives[p].selected.Some? || T.archives[p].dataPoints.Some?
    ensures var A := T.archives[p];
      && A.upload in T.uploads && T.uploads[A.upload].sourceVersion.Some?
      && ChainFrom(T, A.upload, T.uploads[A.upload].sourceVersion.value, A.run, A.source, A.selected, A.dataPoints)
      && (A.upload, T.uploads[A.upload].sourceVersion.value) in T.log.clean
  {
    assert ArchiveOk(T, p);
    UploadHolds(T, T.archives[p].upload);
    hide Inv;
  }

  /** Provenance of every archive row, as long as it exists: the source, selected pages and data that
      it serves derive from the pinned version of the upload that it names, which the scanner had
      reported clean. */
  lemma ArchiveProvenance(b: seq<State>, ls: seq<Label>, i: nat, p: (Id, nat))
    requires Run(b, ls) && i <= |ls| && |b| == |ls| + 1 && p in b[i].table.archives
    requires b[i].table.archives[p].source.Some? || b[i].table.archives[p].selected.Some?
             || b[i].table.archives[p].dataPoints.Some?
    ensures var T, A := b[i].table, b[i].table.archives[p];
      && A.upload in T.uploads && T.uploads[A.upload].sourceVersion.Some?
      && var version := T.uploads[A.upload].sourceVersion.value;
      && ChainFrom(T, A.upload, version, A.run, A.source, A.selected, A.dataPoints)
      && exists k :: 0 <= k < i && RecordsCleanReport(b[k], ls[k], A.upload, version)
  {
    hide Run, Inv, ChainFrom, RecordsCleanReport;
    RunInv(b, ls, i);
    ArchiveChainNow(b[i].table, p);
    var u := b[i].table.archives[p].upload;
    CleanWasReported(b, ls, i, u, b[i].table.uploads[u].sourceVersion.value);
  }

  /** The pinned version, the run and every derived reference of an upload are written once. */
  lemma PinnedOnce(b: seq<State>, ls: seq<Label>, i: nat, j: nat, u: Id)
    requires Run(b, ls) && i <= j <= |ls| && |b| == |ls| + 1 && u in b[i].table.uploads
    ensures u in b[j].table.uploads
    ensures var U, U' := b[i].table.uploads[u], b[j].table.uploads[u];
      && U'.document == U.document
      && (U.sourceVersion.Some? ==> U'.sourceVersion == U.sourceVersion && U'.run == U.run)
      && (U.screenInput.Some? ==> U'.screenInput == U.screenInput)
      && (U.selected.Some? ==> U'.selected == U.selected && U'.fullInput == U.fullInput)
      && (U.dataPoints.Some? ==> U'.dataPoints == U.dataPoints)
  {
    hide Run, Inv, Evolves;
    RunInv(b, ls, i);
    RunEvolves(b, ls, i, j);
    UploadHolds(b[i].table, u);
    UploadAdvances(b[i].table, b[j].table, u);
    hide Lineage, Current;
  }

  // ------------------------------------------------------------------ progress

  /** The uploads a document has ever had. */
  function UploadsOf(T: Table, d: Id): set<Id> {
    set u | u in T.uploads && T.uploads[u].document == d
  }

  /** Uploads created first, then the rank of the status. */
  predicate Behind(uploads: nat, rank: nat, uploads': nat, rank': nat) {
    uploads < uploads' || (uploads == uploads' && rank <= rank')
  }

  function Elements(s: seq<Id>): set<Id> { set x | x in s }

  lemma {:induction false} DistinctCount(s: seq<Id>)
    requires forall i, j :: 0 <= i < j < |s| ==> s[i] != s[j]
    ensures |Elements(s)| == |s|
  {
    if s != [] {
      var front, last := s[..|s| - 1], s[|s| - 1];
      assert s == front + [last];
      DistinctCount(front);
      assert last !in Elements(front);
      assert Elements(s) == Elements(front) + {last};
    }
  }

  lemma BornAreUploads(T: Table, d: Id)
    requires Inv(T) && d in T.documents
    ensures d in T.log.born && UploadsOf(T, d) == Elements(T.log.born[d])
    ensures |UploadsOf(T, d)| == |T.log.born[d]|
    ensures forall i, j :: 0 <= i < j < |T.log.born[d]| ==> T.log.born[d][i] != T.log.born[d][j]
  {
    DocumentHolds(T, d);
    BornHolds(T, d);
    forall u | u in UploadsOf(T, d) ensures u in T.log.born[d] { UploadHolds(T, u); }
    hide Inv, DocumentOk;
    DistinctCount(T.log.born[d]);
  }

  lemma BornHolds(T: Table, d: Id)
    requires Inv(T) && d in T.log.born
    ensures BornOk(T, d)
  {
  }

  /** Progress never reverses: over any stretch of a run, the pair of uploads created and rank of
      a document's status grows lexicographically. */
  lemma ProgressNeverReverses(b: seq<State>, ls: seq<Label>, i: nat, j: nat, d: Id)
    requires Run(b, ls) && i <= j <= |ls| && |b| == |ls| + 1 && d in b[i].table.documents
    ensures d in b[j].table.documents
    ensures Behind(|UploadsOf(b[i].table, d)|, Rank(b[i].table.documents[d].status),
                   |UploadsOf(b[j].table, d)|, Rank(b[j].table.documents[d].status))
  {
    hide Run, Inv, Evolves, UploadsOf;
    RunInv(b, ls, i);
    RunInv(b, ls, j);
    RunEvolves(b, ls, i, j);
    DocumentAdvances(b[i].table, b[j].table, d);
    BornAreUploads(b[i].table, d);
    BornAreUploads(b[j].table, d);
  }

  // -------------------------------------------------------------- conservation

  /** Document conservation: uploads ever created = archives + the current one; archive rows are
      exactly 1..last, each naming another upload of the document; and there is a current upload
      exactly while the document is not ARCHIVED. */
  lemma DocumentConservation(b: seq<State>, ls: seq<Label>, i: nat, d: Id)
    requires Run(b, ls) && i <= |ls| && |b| == |ls| + 1 && d in b[i].table.documents
    ensures var T := b[i].table;
      var D := T.documents[d];
      && |UploadsOf(T, d)| == D.lastArchive + CurrentCount(D)
      && (forall n: nat :: (d, n) in T.archives <==> 1 <= n <= D.lastArchive)
      && (forall n: nat :: (d, n) in T.archives ==>
            (T.archives[(d, n)].upload in UploadsOf(T, d) && Some(T.archives[(d, n)].upload) != D.currentUpload))
      && (forall m: nat, n: nat :: (d, m) in T.archives && (d, n) in T.archives && m != n ==>
            T.archives[(d, m)].upload != T.archives[(d, n)].upload)
      && (D.currentUpload.Some? <==> !D.status.Archived?)
      && (D.currentUpload.Some? ==> D.currentUpload.value in UploadsOf(T, d))
  {
    RunInv(b, ls, i);
    hide Run, Inv;
    var T := b[i].table;
    BornAreUploads(T, d);
    DocumentHolds(T, d);
    ArchivesHold(T, d);
  }

  lemma ArchivesHold(T: Table, d: Id)
    requires Inv(T) && d in T.documents
    ensures forall n: nat :: (d, n) in T.archives <==> 1 <= n <= T.documents[d].lastArchive
    ensures forall n: nat :: (d, n) in T.archives ==>
      d in T.log.born && 1 <= n <= |T.log.born[d]| && T.archives[(d, n)].upload == T.log.born[d][n - 1]
  {
    forall n: nat | (d, n) in T.archives
      ensures d in T.log.born && 1 <= n <= T.documents[d].lastArchive && n <= |T.log.born[d]|
              && T.archives[(d, n)].upload == T.log.born[d][n - 1]
    {
      assert ArchiveOk(T, (d, n));
    }
  }

  // ------------------------------------------------------ who writes what, once

  lemma BornWrites(T: Table, d: Id, D: Document, u: Id, next: Id)
    ensures var T' := Born(T, d, D, u, next);
      T'.archives == T.archives && T'.loanArchives == T.loanArchives
  {
  }

  lemma OpeningWrites(T: Table, t: Api.Call, T': Table, n: Option<Api.Call>)
    requires Api.Opening(t) && Api.OpeningSteps(T, t, T', n)
    ensures T'.archives == T.archives && T'.loanArchives == T.loanArchives
    ensures !t.DocumentTxn? ==> T'.log.ordinal == T.log.ordinal && T'.log.born == T.log.born
  {
    hide Born;
    if t.DocumentTxn? && t.q.identity.path.UploadsPath? && t.q.identity.path.document in T.documents {
      var d := t.q.identity.path.document;
      BornWrites(T, d, Renewed(T.documents[d], T.next), T.next, T.next + 1);
      ReplaceIs(T, d, t.q.identity, Api.HashOf(t.q));
      hide Replace;
    } else if t.DocumentTxn? {
      BornWrites(T, T.next, NewDocument(t.instance, T.next + 1), T.next + 1, T.next + 2);
      CreateDocumentIs(T, t.instance, t.q.identity, Api.HashOf(t.q));
      hide CreateDocument;
    }
  }

  lemma CompletingWrites(T: Table, t: Api.Call, T': Table, n: Option<Api.Call>)
    requires Api.Completing(t) && Api.CompletingSteps(T, t, T', n)
    ensures !t.ArchiveTxn? ==> T'.archives == T.archives
    ensures T'.loanArchives == T.loanArchives && T'.log.ordinal == T.log.ordinal && T'.log.born == T.log.born
  {
  }

  lemma CollectingWrites(T: Table, t: Api.Call, T': Table, n: Option<Api.Call>)
    requires Api.Collecting(t) && Api.CollectingSteps(T, t, T', n)
    ensures T'.archives == T.archives && T'.log.ordinal == T.log.ordinal && T'.log.born == T.log.born
    ensures !t.LoanArchiveTxn? ==> T'.loanArchives == T.loanArchives
  {
  }

  lemma CallWrites(T: Table, t: Api.Call, T': Table, n: Option<Api.Call>)
    requires Api.Steps(T, t, T', n) && Transacts(t)
    ensures !t.ArchiveTxn? ==> T'.archives == T.archives
    ensures !t.LoanArchiveTxn? ==> T'.loanArchives == T.loanArchives
    ensures !t.DocumentTxn? ==> T'.log.ordinal == T.log.ordinal && T'.log.born == T.log.born
  {
    hide Api.OpeningSteps, Api.CompletingSteps, Api.CollectingSteps, Api.ReplySteps;
    if Api.Opening(t) { OpeningWrites(T, t, T', n); }
    else if Api.Completing(t) { CompletingWrites(T, t, T', n); }
    else { CollectingWrites(T, t, T', n); }
  }

  /** Only the archiving transaction adds document archives, only the loan-archiving one loan
      archives, and only the document transaction uploads. */
  lemma StepWrites(s: State, l: Label, s': State)
    requires Does(s, l, s')
    ensures s'.table.archives != s.table.archives ==> ApiAt(s, l) && s.threads[l.tid].api.ArchiveTxn?
    ensures s'.table.loanArchives != s.table.loanArchives ==>
      ApiAt(s, l) && s.threads[l.tid].api.LoanArchiveTxn?
    ensures s'.table.log.ordinal != s.table.log.ordinal || s'.table.log.born != s.table.log.born ==>
      ApiAt(s, l) && s.threads[l.tid].api.DocumentTxn?
  {
    StepUnlogged(s, l, s');
    if TakesEffect(s, l, s') {
      hide Api.Steps;
      CallWrites(s.table, s.threads[l.tid].api, s'.table, l.apiNext);
    }
  }

  // ------------------------------------------------------------- archive rows

  /** The references of an archive row are those that a document carries. */
  ghost predicate Froze(A: DocumentArchive, D: Document) {
    && Some(A.upload) == D.currentUpload && A.run == D.run && A.source == D.source
    && A.selected == D.selected && A.dataPoints == D.dataPoints
  }

  /** The references of an archive row are those of the upload it names. */
  ghost predicate FrozeUpload(A: DocumentArchive, U: Upload) {
    && Terminal(U.status) && A.run == U.run && A.selected == U.selected && A.dataPoints == U.dataPoints
    && (A.source.Some? ==> U.sourceVersion.Some? && A.source.value.version == U.sourceVersion.value)
  }

  lemma ArchivingStep(s: State, l: Label, s': State, d: Id, n: nat)
    requires Good(s) && Does(s, l, s') && (d, n) !in s.table.archives && (d, n) in s'.table.archives
    ensures ApiAt(s, l) && s.threads[l.tid].api.ArchiveTxn?
    ensures var t := s.threads[l.tid].api;
      && Api.CallOk(s.table, t) && t.seen.currentUpload.Some?
      && CanArchiveDocument(s.table, d, t.seen, t.q.identity)
      && s'.table.archives[(d, n)] == RowOf(t.seen)
  {
    hide Good, Does;
    ArchivingKind(s, l, s', d, n);
    ArchivingKnows(s, l);
  }

  lemma ArchivingKnows(s: State, l: Label)
    requires Good(s) && ApiAt(s, l) && s.threads[l.tid].api.ArchiveTxn?
    ensures var t := s.threads[l.tid].api; Api.CallOk(s.table, t) && t.seen.currentUpload.Some?
  {
    hide Inv;
    assert ThreadOk(s.table, s.threads[l.tid]);
  }

  lemma ArchivingKind(s: State, l: Label, s': State, d: Id, n: nat)
    requires Does(s, l, s') && (d, n) !in s.table.archives && (d, n) in s'.table.archives
    ensures ApiAt(s, l) && s.threads[l.tid].api.ArchiveTxn?
    ensures var t := s.threads[l.tid].api;
      && t.seen.currentUpload.Some?
      && CanArchiveDocument(s.table, d, t.seen, t.q.identity)
      && s'.table.archives[(d, n)] == RowOf(t.seen)
  {
    StepWrites(s, l, s');
  }

  lemma SeenIsCurrent(T: Table, d: Id, seen: Document, identity: Identity)
    requires Inv(T) && CanArchiveDocument(T, d, seen, identity) && seen.currentUpload.Some?
    requires seen.currentUpload.value in T.uploads
    requires ArchiveHolds(RowOf(seen), T.uploads[seen.currentUpload.value])
    ensures Froze(RowOf(seen), T.documents[d])
  {
    DocumentHolds(T, d);
    hide Inv;
  }

  /** An archive freezes what it read: `archive_document` reads first and commits later, and still
      its row carries the document's own references as they are when it commits. */
  lemma ArchiveFreezes(b: seq<State>, ls: seq<Label>, i: nat, d: Id, n: nat)
    requires Run(b, ls) && i < |ls| && |b| == |ls| + 1
    requires (d, n) !in b[i].table.archives && (d, n) in b[i + 1].table.archives
    ensures d in b[i].table.documents
    ensures Froze(b[i + 1].table.archives[(d, n)], b[i].table.documents[d])
  {
    hide Run, Good, Does, Inv, Froze;
    RunGood(b, ls, i);
    RunInv(b, ls, i);
    RunDoes(b, ls, i);
    ArchivingStep(b[i], ls[i], b[i + 1], d, n);
    var t := b[i].threads[ls[i].tid].api;
    SeenIsCurrent(b[i].table, d, t.seen, t.q.identity);
  }

  /** And it stays true of the upload the row names, for the rest of the run. */
  lemma ArchiveStaysTrue(b: seq<State>, ls: seq<Label>, i: nat, d: Id, n: nat)
    requires Run(b, ls) && i <= |ls| && |b| == |ls| + 1 && (d, n) in b[i].table.archives
    ensures b[i].table.archives[(d, n)].upload in b[i].table.uploads
    ensures FrozeUpload(b[i].table.archives[(d, n)],
                        b[i].table.uploads[b[i].table.archives[(d, n)].upload])
  {
    RunInv(b, ls, i);
    hide Run;
    assert ArchiveOk(b[i].table, (d, n));
    hide Inv;
  }

  lemma SeenCode(T: Table, d: Id, seen: Document, identity: Identity)
    requires Inv(T) && CanArchiveDocument(T, d, seen, identity) && seen.currentUpload.Some?
    requires seen.currentUpload.value in T.uploads && Terminal(seen.status)
    requires Api.CodeHolds(seen, T.uploads[seen.currentUpload.value])
    ensures T.documents[d].status == seen.status
    ensures seen.status.Succeeded? || seen.status.Failed? ==> seen.failureCode == T.documents[d].failureCode
  {
    DocumentHolds(T, d);
    hide Inv;
  }

  /** The failure code is the one field that can go stale, and only on HOLD and REJECTED: a document
      archived as SUCCEEDED or FAILED leaves its own failure code in the row. `Staleness` has runs
      that show the other two. */
  lemma ArchivedCode(b: seq<State>, ls: seq<Label>, i: nat, d: Id, n: nat)
    requires Run(b, ls) && i < |ls| && |b| == |ls| + 1
    requires (d, n) !in b[i].table.archives && (d, n) in b[i + 1].table.archives
    ensures d in b[i].table.documents && Terminal(b[i].table.documents[d].status)
    ensures b[i].table.documents[d].status.Succeeded? || b[i].table.documents[d].status.Failed? ==>
      b[i + 1].table.archives[(d, n)].failureCode == b[i].table.documents[d].failureCode
  {
    hide Run, Good, Does, Inv;
    RunGood(b, ls, i);
    RunInv(b, ls, i);
    RunDoes(b, ls, i);
    ArchivingStep(b[i], ls[i], b[i + 1], d, n);
    var t := b[i].threads[ls[i].tid].api;
    SeenCode(b[i].table, d, t.seen, t.q.identity);
  }

  // ------------------------------------------------------------------- births

  lemma BirthStep(s: State, l: Label, s': State, u: Id)
    requires Good(s) && Good(s') && Does(s, l, s') && u !in s.table.uploads && u in s'.table.uploads
    ensures ApiAt(s, l) && s.threads[l.tid].api.DocumentTxn? && s'.table != s.table
  {
    UploadHolds(s'.table, u);
    StepWrites(s, l, s');
    assert Bounded(s.table);
    hide Inv, ThreadsOk;
  }

  lemma BornLogged(T: Table, d: Id)
    requires Inv(T)
    ensures d in T.documents <==> d in T.log.born
  {
    if d in T.documents { DocumentHolds(T, d); }
    assert Bounded(T);
  }

  /** Only the document transaction creates documents. */
  lemma DocumentBirthStep(s: State, l: Label, s': State, d: Id)
    requires Inv(s.table) && Inv(s'.table) && Does(s, l, s') && d !in s.table.documents && d in s'.table.documents
    ensures ApiAt(s, l) && s.threads[l.tid].api.DocumentTxn?
  {
    hide Inv, Does;
    BornLogged(s.table, d);
    BornLogged(s'.table, d);
    StepWrites(s, l, s');
  }

  predicate IsCurrent(T: Table, instance: Id) {
    instance in T.instances && HeadIs(T, T.instances[instance].loan, instance)
  }

  lemma HeadCurrent(T: Table, loan: LoanKey, instance: Id)
    requires Inv(T) && HeadIs(T, loan, instance)
    ensures IsCurrent(T, instance)
  {
    assert HeadOk(T, loan);
  }

  lemma BornRows(T: Table, d: Id, D: Document, u: Id, next: Id, x: Id)
    requires x !in T.uploads && x in Born(T, d, D, u, next).uploads
    ensures var T' := Born(T, d, D, u, next);
      x == u && T'.uploads[u].document == d && d in T'.documents && T'.documents[d] == D
  {
  }

  lemma ReplacedInHead(T: Table, t: Api.Call, T': Table, n: Option<Api.Call>, u: Id)
    requires t.DocumentTxn? && t.q.identity.path.UploadsPath? && Api.OpeningSteps(T, t, T', n)
    requires u !in T.uploads && u in T'.uploads
    ensures T'.uploads[u].document in T'.documents
    ensures HeadIs(T, Api.LoanOf(t.q), T'.documents[T'.uploads[u].document].instance)
  {
    var d := t.q.identity.path.document;
    ReplaceIs(T, d, t.q.identity, Api.HashOf(t.q));
    hide Born, Replace;
    BornRows(T, d, Renewed(T.documents[d], T.next), T.next, T.next + 1, u);
  }

  lemma CreatedInHead(T: Table, t: Api.Call, T': Table, n: Option<Api.Call>, u: Id)
    requires t.DocumentTxn? && !t.q.identity.path.UploadsPath? && Api.OpeningSteps(T, t, T', n)
    requires u !in T.uploads && u in T'.uploads
    ensures T'.uploads[u].document in T'.documents
    ensures HeadIs(T, Api.LoanOf(t.q), T'.documents[T'.uploads[u].document].instance)
  {
    CreateDocumentIs(T, t.instance, t.q.identity, Api.HashOf(t.q));
    hide Born, CreateDocument;
    BornRows(T, T.next, NewDocument(t.instance, T.next + 1), T.next + 1, T.next + 2, u);
  }

  lemma BornInHead(T: Table, t: Api.Call, T': Table, n: Option<Api.Call>, u: Id)
    requires t.DocumentTxn? && Api.Steps(T, t, T', n) && u !in T.uploads && u in T'.uploads
    ensures T'.uploads[u].document in T'.documents
    ensures HeadIs(T, Api.LoanOf(t.q), T'.documents[T'.uploads[u].document].instance)
  {
    hide Api.OpeningSteps, HeadIs;
    if t.q.identity.path.UploadsPath? { ReplacedInHead(T, t, T', n, u); } else { CreatedInHead(T, t, T', n, u); }
  }

  /** No upload, and so no document, is born in an instance that is not its loan's current one. */
  lemma BornInCurrentInstance(b: seq<State>, ls: seq<Label>, i: nat, u: Id)
    requires Run(b, ls) && i < |ls| && |b| == |ls| + 1
    requires u !in b[i].table.uploads && u in b[i + 1].table.uploads
    ensures b[i + 1].table.uploads[u].document in b[i + 1].table.documents
    ensures IsCurrent(b[i].table, b[i + 1].table.documents[b[i + 1].table.uploads[u].document].instance)
  {
    hide Run, Good, HeadIs, Inv, IsCurrent, Api.OpeningSteps;
    RunGood(b, ls, i);
    RunGood(b, ls, i + 1);
    RunInv(b, ls, i);
    RunDoes(b, ls, i);
    BirthStep(b[i], ls[i], b[i + 1], u);
    BornInHead(b[i].table, b[i].threads[ls[i].tid].api, b[i + 1].table, ls[i].apiNext, u);
    HeadCurrent(b[i].table, Api.LoanOf(b[i].threads[ls[i].tid].api.q),
                b[i + 1].table.documents[b[i + 1].table.uploads[u].document].instance);
  }
}
