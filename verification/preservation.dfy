/** Each building block of a write keeps the invariant and only moves the table forward. */
module Preservation {
  import opened Records
  import opened Writes
  import opened Invariant

  // ---------------------------------------------- claims that evolution keeps

  lemma LookupStable(T: Table, T': Table, u: Id, d: Id, run: Id)
    requires UploadsEvolve(T, T') && Routed(T, u, d, run)
    requires UploadOk(T, u)
    ensures Routed(T', u, d, run)
  {
    assert UploadEvolves(T, T', u);
  }

  lemma CommitStable(T: Table, T': Table, c: Commit)
    requires UploadsEvolve(T, T') && CommitOk(T, c)
    requires UploadOk(T, c.upload)
    ensures CommitOk(T', c)
  {
    assert UploadEvolves(T, T', c.upload);
  }

  lemma BodyStable(T: Table, T': Table, b: ReplyBody)
    requires Inv(T) && Evolves(T, T') && BodyTrue(T, b)
    ensures BodyTrue(T', b)
  {
    match b
    case LoanCreated(l, i) => assert InstanceEvolves(T, T', i);
    case UploadSession(d, u) => assert UploadEvolves(T, T', u);
    case UploadCompleted(d, u, run, _) =>
      assert UploadOk(T, u);
      assert UploadEvolves(T, T', u);
    case DocumentArchived(d, u, n) =>
    case LoanArchived(l, i, n, count) =>
  }

  lemma UploadHolds(T: Table, u: Id)
    requires Inv(T) && u in T.uploads
    ensures UploadOk(T, u)
  {
  }

  lemma DocumentHolds(T: Table, d: Id)
    requires Inv(T) && d in T.documents
    ensures DocumentOk(T, d)
  {
  }

  lemma UploadAdvances(T: Table, T': Table, u: Id)
    requires Evolves(T, T') && u in T.uploads
    ensures UploadEvolves(T, T', u)
  {
  }

  lemma DocumentAdvances(T: Table, T': Table, d: Id)
    requires Evolves(T, T') && d in T.documents
    ensures DocumentEvolves(T, T', d)
  {
  }

  lemma EvolvesParts(T: Table, T': Table)
    requires Evolves(T, T')
    ensures UploadsEvolve(T, T') && DocumentsEvolve(T, T') && RowsEvolve(T, T')
    ensures StoresExtend(T, T') && LogExtends(T, T')
  {
  }

  // ------------------------------------------------ one upload, one document

  /** What a write of upload `u` to `U'` and of its document to `D'` has to respect. */
  ghost predicate PairOk(T: Table, T': Table, d: Id, D': Document, u: Id, U': Upload) {
    && u in T.uploads && T.uploads[u].document == d && d in T.documents
    && Shape(T', u, U') && UploadForward(T.uploads[u], U')
    && (Current(T, u) ==> Agrees(D', u, U') && DocumentForward(T, T', d, D', U'))
    && (!Current(T, u) ==>
          D' == T.documents[d] && Terminal(U'.status)
          && T'.log.postprocessLease == T.log.postprocessLease)
  }

  ghost predicate DocumentForward(T: Table, T': Table, d: Id, D': Document, U': Upload)
    requires d in T.documents
  {
    var D := T.documents[d];
    && D'.instance == D.instance && D'.currentUpload == D.currentUpload
    && D'.lastArchive == D.lastArchive
    && Rank(D.status) <= Rank(D'.status) < 6
    && (Rank(D.status) >= 5 ==> SameFailure(D, D'))
    && (D'.lease.Some? ==> Find(T'.log.postprocessLease, d) == Some(D'.lease.value.token))
    && (D'.screenInput == D.screenInput || (U'.screenInput.Some? && D'.screenInput == U'.screenInput))
    && (D'.fullInput == D.fullInput || (U'.fullInput.Some? && D'.fullInput == U'.fullInput))
  }

  /** `T'` differs from `T` in at most these two rows of the pipeline. */
  ghost predicate PairWritten(T: Table, T': Table, d: Id, D': Document, u: Id, U': Upload) {
    && T'.documents == T.documents[d := D'] && T'.uploads == T.uploads[u := U']
    && SameOutside(T, T') && T'.archives == T.archives
    && T'.objects == T.objects && T'.instances == T.instances
    && OnlyLeases(T.log, T'.log, d, u)
  }

  /** The log may have recorded a new lease token for these two rows, nothing else. */
  ghost predicate OnlyLeases(L: Log, L': Log, d: Id, u: Id) {
    && L' == L.(validationLease := L'.validationLease, postprocessLease := L'.postprocessLease)
    && (forall x :: x != u ==> Find(L'.validationLease, x) == Find(L.validationLease, x))
    && (forall x :: x != d ==> Find(L'.postprocessLease, x) == Find(L.postprocessLease, x))
  }

  ghost predicate SameOutside(T: Table, T': Table) {
    && T'.heads == T.heads && T'.loanArchives == T.loanArchives && T'.outbox == T.outbox
    && T'.scans == T.scans && T'.lookups == T.lookups && T'.latest == T.latest
    && T'.idempotency == T.idempotency
  }

  lemma PairUpload(T: Table, T': Table, d: Id, D': Document, u: Id, U': Upload, x: Id)
    requires PairOk(T, T', d, D', u, U') && PairWritten(T, T', d, D', u, U')
    requires x in T.uploads && UploadOk(T, x)
    ensures UploadOk(T', x) && UploadEvolves(T, T', x)
  {
    if x != u {
      assert T'.uploads[x] == T.uploads[x];
      assert Current(T', x) == Current(T, x);
    }
  }

  lemma PairPins(T: Table, T': Table, d: Id, D': Document, u: Id, U': Upload, D: Document)
    requires PairOk(T, T', d, D', u, U') && PairWritten(T, T', d, D', u, U')
    requires UploadOk(T, u) && PinOk(T, D)
    ensures PinOk(T', D)
  {
  }

  lemma PairDocument(T: Table, T': Table, d: Id, D': Document, u: Id, U': Upload, x: Id)
    requires PairOk(T, T', d, D', u, U') && PairWritten(T, T', d, D', u, U') && UploadOk(T, u)
    requires x in T.documents && DocumentOk(T, x)
    ensures DocumentOk(T', x) && DocumentEvolves(T, T', x)
  {
    PairPins(T, T', d, D', u, U', T.documents[x]);
    if x != d {
      assert T'.documents[x] == T.documents[x];
      if T.documents[x].currentUpload.Some? {
        assert T'.uploads[T.documents[x].currentUpload.value] == T.uploads[T.documents[x].currentUpload.value];
      }
    }
  }

  lemma PairArchive(T: Table, T': Table, d: Id, D': Document, u: Id, U': Upload, p: (Id, nat))
    requires PairOk(T, T', d, D', u, U') && PairWritten(T, T', d, D', u, U')
    requires p in T.archives && ArchiveOk(T, p)
    ensures ArchiveOk(T', p)
  {
    var A := T.archives[p];
    assert T'.archives[p] == A;
    assert T'.documents[p.0].lastArchive == T.documents[p.0].lastArchive;
    if A.upload == u { assert ArchiveHolds(A, U'); }
  }

  lemma PairUploads(T: Table, T': Table, d: Id, D': Document, u: Id, U': Upload)
    requires UploadsOk(T) && PairOk(T, T', d, D', u, U') && PairWritten(T, T', d, D', u, U')
    ensures UploadsOk(T') && UploadsEvolve(T, T')
  {
    forall x | x in T'.uploads ensures UploadOk(T', x) && UploadEvolves(T, T', x) {
      PairUpload(T, T', d, D', u, U', x);
    }
  }

  lemma PairDocuments(T: Table, T': Table, d: Id, D': Document, u: Id, U': Upload)
    requires DocumentsOk(T) && PairOk(T, T', d, D', u, U') && PairWritten(T, T', d, D', u, U')
    requires UploadOk(T, u)
    ensures DocumentsOk(T') && DocumentsEvolve(T, T')
  {
    forall x | x in T'.documents ensures DocumentOk(T', x) && DocumentEvolves(T, T', x) {
      PairDocument(T, T', d, D', u, U', x);
    }
  }

  lemma PairBorns(T: Table, T': Table, d: Id, D': Document, u: Id, U': Upload)
    requires BornsOk(T) && PairOk(T, T', d, D', u, U') && PairWritten(T, T', d, D', u, U')
    ensures BornsOk(T')
  {
    forall x | x in T'.log.born ensures BornOk(T', x) {
      assert BornOk(T, x);
    }
  }

  lemma PairArchives(T: Table, T': Table, d: Id, D': Document, u: Id, U': Upload)
    requires ArchivesOk(T) && PairOk(T, T', d, D', u, U') && PairWritten(T, T', d, D', u, U')
    ensures ArchivesOk(T')
  {
    forall p | p in T'.archives ensures ArchiveOk(T', p) {
      PairArchive(T, T', d, D', u, U', p);
    }
    assert T'.documents[d].lastArchive == T.documents[d].lastArchive;
  }

  lemma PairPipeline(T: Table, T': Table, d: Id, D': Document, u: Id, U': Upload)
    requires PipelineOk(T) && PairOk(T, T', d, D', u, U') && PairWritten(T, T', d, D', u, U')
    ensures PipelineOk(T') && UploadsEvolve(T, T') && DocumentsEvolve(T, T')
  {
    PairUploads(T, T', d, D', u, U');
    assert UploadOk(T, u);
    PairDocuments(T, T', d, D', u, U');
    PairBorns(T, T', d, D', u, U');
    PairArchives(T, T', d, D', u, U');
  }

  // ------------------------------------------------------------------ frames

  ghost predicate SameLoans(T: Table, T': Table) {
    && T'.heads == T.heads && T'.instances == T.instances && T'.loanArchives == T.loanArchives
    && T'.outbox == T.outbox && T'.log.archivedAs == T.log.archivedAs
    && T'.log.eventOf == T.log.eventOf && T'.log.manifests == T.log.manifests
  }

  lemma LoansFrame(T: Table, T': Table)
    requires LoansOk(T) && SameLoans(T, T') && Extends(T.objects, T'.objects)
    ensures LoansOk(T')
  {
    forall l | l in T'.heads ensures HeadOk(T', l) { assert HeadOk(T, l); }
    forall i | i in T'.instances ensures InstanceOk(T', i) { assert InstanceOk(T, i); }
    forall p | p in T'.loanArchives ensures LoanArchiveOk(T', p) { assert LoanArchiveOk(T, p); }
    forall e | e in T'.outbox ensures EventOk(T', e) { assert EventOk(T, e); }
  }

  lemma LookupsFrame(T: Table, T': Table)
    requires UploadsOk(T) && LookupsOk(T) && UploadsEvolve(T, T') && T'.lookups == T.lookups
    ensures LookupsOk(T')
  {
    forall k | k in T'.lookups ensures LookupOk(T', k) {
      assert LookupOk(T, k);
      LookupStable(T, T', k.upload, T.lookups[k].document, T.lookups[k].run);
    }
  }

  lemma CommitsFrame(T: Table, T': Table)
    requires UploadsOk(T) && CommitsOk(T) && UploadsEvolve(T, T') && T'.log.commits == T.log.commits
    ensures CommitsOk(T')
  {
    forall i | 0 <= i < |T'.log.commits| ensures CommitOk(T', T'.log.commits[i]) {
      assert CommitOk(T, T.log.commits[i]);
      CommitStable(T, T', T.log.commits[i]);
    }
  }

  lemma RepliesFrame(T: Table, T': Table)
    requires Inv(T) && Evolves(T, T')
    requires T'.idempotency == T.idempotency && T'.log.effects == T.log.effects
             && T'.log.replies == T.log.replies
    ensures RepliesOk(T')
  {
    forall x | x in T'.idempotency ensures BodyTrue(T', T'.idempotency[x].body) {
      BodyStable(T, T', T.idempotency[x].body);
    }
  }

  lemma RowsSame(T: Table, T': Table)
    requires T'.lookups == T.lookups && T'.instances == T.instances && T'.heads == T.heads
    ensures RowsEvolve(T, T')
  {
  }

  /** Rows outside the pipeline that a pipeline write leaves alone. */
  ghost predicate OnlyPipeline(T: Table, T': Table) {
    && SameOutside(T, T') && SameLoans(T, T') && T'.objects == T.objects
    && T'.log.commits == T.log.commits && T'.log.effects == T.log.effects
    && T'.log.replies == T.log.replies && T'.log.clean == T.log.clean
  }

  lemma PipelineFrame(T: Table, T': Table)
    requires Inv(T) && PipelineOk(T') && UploadsEvolve(T, T') && DocumentsEvolve(T, T')
    requires OnlyPipeline(T, T') && Bounded(T') && T.next <= T'.next
    requires Extends(T.signals, T'.signals) && Extends(T.archives, T'.archives)
    requires Extends(T.log.ordinal, T'.log.ordinal)
    ensures Inv(T') && Evolves(T, T')
  {
    LoansFrame(T, T');
    LookupsFrame(T, T');
    CommitsFrame(T, T');
    RowsSame(T, T');
    assert Evolves(T, T');
    RepliesFrame(T, T');
    assert ObjectsOk(T') && ScansOk(T');
  }

  // --------------------------------------------------------- pipeline writes

  lemma PairOutside(T: Table, d: Id, D': Document, u: Id, U': Upload)
    requires Bounded(T) && d in T.documents && u in T.uploads
    ensures var T' := PutPair(T, d, D', u, U');
      Bounded(T') && OnlyPipeline(T, T') && PairWritten(T, T', d, D', u, U')
      && T.next <= T'.next && Extends(T.signals, T'.signals)
  {
  }

  lemma PairKeeps(T: Table, d: Id, D': Document, u: Id, U': Upload)
    requires Inv(T) && PairOk(T, PutPair(T, d, D', u, U'), d, D', u, U')
    ensures Inv(PutPair(T, d, D', u, U')) && Evolves(T, PutPair(T, d, D', u, U'))
  {
    var T' := PutPair(T, d, D', u, U');
    PairOutside(T, d, D', u, U');
    PairPipeline(T, T', d, D', u, U');
    PipelineFrame(T, T');
  }

  lemma UploadKeeps(T: Table, u: Id, U': Upload)
    requires Inv(T) && u in T.uploads && T.uploads[u].document in T.documents
    requires PairOk(T, PutUpload(T, u, U'), T.uploads[u].document,
                    T.documents[T.uploads[u].document], u, U')
    ensures Inv(PutUpload(T, u, U')) && Evolves(T, PutUpload(T, u, U'))
  {
    var d := T.uploads[u].document;
    assert PutDocument(T, d, T.documents[d]) == T by {
      assert T.documents[d := T.documents[d]] == T.documents;
    }
    PairKeeps(T, d, T.documents[d], u, U');
  }

  lemma DocumentOutside(T: Table, d: Id, D': Document)
    requires Bounded(T) && d in T.documents
    ensures Bounded(PutDocument(T, d, D')) && OnlyPipeline(T, PutDocument(T, d, D'))
  {
  }

  lemma DocumentKeeps(T: Table, d: Id, D': Document, u: Id)
    requires Inv(T) && u in T.uploads
    requires PairOk(T, PutDocument(T, d, D'), d, D', u, T.uploads[u])
    ensures Inv(PutDocument(T, d, D')) && Evolves(T, PutDocument(T, d, D'))
  {
    var T' := PutDocument(T, d, D');
    assert T.uploads[u := T.uploads[u]] == T.uploads;
    DocumentOutside(T, d, D');
    PairPipeline(T, T', d, D', u, T.uploads[u]);
    PipelineFrame(T, T');
  }

  // -------------------------------------------- writes outside the pipeline

  /** The pipeline rows are the same; what they refer to can only have grown. */
  ghost predicate PipelineUntouched(T: Table, T': Table) {
    && T'.documents == T.documents && T'.uploads == T.uploads && T'.archives == T.archives
    && T.instances.Keys <= T'.instances.Keys && Extends(T.objects, T'.objects)
    && T'.log.born == T.log.born && T'.log.ordinal == T.log.ordinal
    && Extends(T.log.runOf, T'.log.runOf) && T.log.clean <= T'.log.clean
    && T'.log.validationLease == T.log.validationLease
    && T'.log.postprocessLease == T.log.postprocessLease
  }

  lemma UntouchedUploads(T: Table, T': Table)
    requires UploadsOk(T) && PipelineUntouched(T, T')
    ensures UploadsOk(T') && UploadsEvolve(T, T')
  {
    forall x | x in T'.uploads ensures UploadOk(T', x) && UploadEvolves(T, T', x) {
      assert UploadOk(T, x);
    }
  }

  lemma UntouchedDocuments(T: Table, T': Table)
    requires DocumentsOk(T) && PipelineUntouched(T, T')
    ensures DocumentsOk(T') && DocumentsEvolve(T, T')
  {
    forall x | x in T'.documents ensures DocumentOk(T', x) && DocumentEvolves(T, T', x) {
      assert DocumentOk(T, x);
    }
  }

  lemma UntouchedPipeline(T: Table, T': Table)
    requires PipelineOk(T) && PipelineUntouched(T, T')
    ensures PipelineOk(T') && UploadsEvolve(T, T') && DocumentsEvolve(T, T')
  {
    UntouchedUploads(T, T');
    UntouchedDocuments(T, T');
    forall x | x in T'.log.born ensures BornOk(T', x) { assert BornOk(T, x); }
    forall p | p in T'.archives ensures ArchiveOk(T', p) { assert ArchiveOk(T, p); }
  }

  /** Rows whose claims speak about the pipeline or the loans but did not change. */
  ghost predicate ClaimsSame(T: Table, T': Table) {
    && T'.lookups == T.lookups && T'.log.commits == T.log.commits && SameLoans(T, T')
    && T'.idempotency == T.idempotency && T'.log.effects == T.log.effects
    && T'.log.replies == T.log.replies
  }

  lemma ClaimsFrame(T: Table, T': Table)
    requires Inv(T) && PipelineUntouched(T, T') && ClaimsSame(T, T')
    requires Bounded(T') && ObjectsOk(T') && ScansOk(T')
    requires T.next <= T'.next && T.scans.Keys <= T'.scans.Keys && Extends(T.signals, T'.signals)
    ensures Inv(T') && Evolves(T, T')
  {
    UntouchedPipeline(T, T');
    LoansFrame(T, T');
    LookupsFrame(T, T');
    CommitsFrame(T, T');
    RowsSame(T, T');
    assert Evolves(T, T');
    RepliesFrame(T, T');
  }

  lemma TickKeeps(T: Table, clock: int)
    requires Inv(T)
    ensures Inv(T.(clock := clock)) && Evolves(T, T.(clock := clock))
  {
    ClaimsFrame(T, T.(clock := clock));
  }

  lemma ReserveRunKeeps(T: Table, u: Id)
    requires Inv(T)
    ensures var T' := T.(next := T.next + 1, log := T.log.(runOf := T.log.runOf[T.next := u]));
      Inv(T') && Evolves(T, T')
  {
    var T' := T.(next := T.next + 1, log := T.log.(runOf := T.log.runOf[T.next := u]));
    RunReserved(T, u);
    hide Inv, Evolves, Bounded, ObjectsOk, ScansOk;
    ClaimsFrame(T, T');
  }

  lemma RunReserved(T: Table, u: Id)
    requires Inv(T)
    ensures var T' := T.(next := T.next + 1, log := T.log.(runOf := T.log.runOf[T.next := u]));
      PipelineUntouched(T, T') && ClaimsSame(T, T') && Bounded(T') && ObjectsOk(T') && ScansOk(T')
  {
    hide PipelineOk, LookupsOk, CommitsOk, LoansOk, RepliesOk;
  }

  lemma ObjectPuts(T: Table, o: Object)
    requires Bounded(T) && ObjectsOk(T) && (o.locator.Some? ==> LocatorOk(o))
    ensures Bounded(PutObject(T, o)) && ObjectsOk(PutObject(T, o))
    ensures Extends(T.objects, PutObject(T, o).objects)
  {
    assert T.next !in T.objects;
  }

  lemma ObjectKeeps(T: Table, o: Object)
    requires Inv(T) && (o.locator.Some? ==> LocatorOk(o))
    ensures Inv(PutObject(T, o)) && Evolves(T, PutObject(T, o))
  {
    ObjectPuts(T, o);
    ClaimsFrame(T, PutObject(T, o));
  }

  lemma SendOutside(T: Table, s: Signal)
    requires Bounded(T)
    ensures Bounded(Send(T, s)) && Extends(T.signals, Send(T, s).signals)
  {
  }

  lemma SendKeeps(T: Table, s: Signal)
    requires Inv(T)
    ensures Inv(Send(T, s)) && Evolves(T, Send(T, s))
  {
    SendOutside(T, s);
    ClaimsFrame(T, Send(T, s));
  }

  lemma AcknowledgeKeeps(T: Table, signal: Id)
    requires Inv(T)
    ensures Inv(Acknowledge(T, signal)) && Evolves(T, Acknowledge(T, signal))
  {
    ClaimsFrame(T, Acknowledge(T, signal));
  }

  lemma ScanPuts(T: Table, u: Id, version: Id, verdict: Verdict, scanCompleted: bool)
    requires Bounded(T) && ScansOk(T) && u in T.uploads && (verdict.Clean? ==> scanCompleted)
    ensures var T' := PutScan(T, u, version, verdict, scanCompleted);
      Bounded(T') && ScansOk(T') && T.scans.Keys <= T'.scans.Keys && T.log.clean <= T'.log.clean
  {
  }

  lemma ScanKeeps(T: Table, u: Id, version: Id, verdict: Verdict, scanCompleted: bool)
    requires Inv(T) && u in T.uploads && (verdict.Clean? ==> scanCompleted)
    ensures Inv(PutScan(T, u, version, verdict, scanCompleted))
    ensures Evolves(T, PutScan(T, u, version, verdict, scanCompleted))
  {
    ScanPuts(T, u, version, verdict, scanCompleted);
    ClaimsFrame(T, PutScan(T, u, version, verdict, scanCompleted));
  }

  // --------------------------------------------- claims that a write adds

  lemma LookupWriteEvolves(T: Table, k: LookupKey, L: Lookup)
    requires Inv(T)
    requires k in T.lookups ==> LookupEvolves(T, T.(lookups := T.lookups[k := L]), k)
    ensures var T' := T.(lookups := T.lookups[k := L]);
      PipelineOk(T') && Evolves(T, T')
  {
    var T' := T.(lookups := T.lookups[k := L]);
    UntouchedPipeline(T, T');
    hide Inv, PipelineOk;
    forall x | x in T.lookups ensures LookupEvolves(T, T', x) {
      if x != k { assert T'.lookups[x] == T.lookups[x]; }
    }
  }

  lemma LookupKeeps(T: Table, k: LookupKey, L: Lookup)
    requires Inv(T) && Routed(T, k.upload, L.document, L.run)
    requires k in T.lookups ==> LookupEvolves(T, T.(lookups := T.lookups[k := L]), k)
    ensures var T' := T.(lookups := T.lookups[k := L]);
      Inv(T') && Evolves(T, T')
  {
    var T' := T.(lookups := T.lookups[k := L]);
    LookupWriteEvolves(T, k, L);
    LoansFrame(T, T');
    CommitsFrame(T, T');
    RepliesFrame(T, T');
    forall x | x in T'.lookups ensures LookupOk(T', x) {
      if x != k { assert LookupOk(T, x); }
    }
  }

  /** Everything but commits and replies, for a write that only appends to the log. */
  lemma AppendFrame(T: Table, T': Table)
    requires Inv(T) && PipelineUntouched(T, T') && T'.lookups == T.lookups && SameLoans(T, T')
    requires StoresExtend(T, T') && LogExtends(T, T')
    ensures PipelineOk(T') && LoansOk(T') && LookupsOk(T') && Evolves(T, T')
  {
    UntouchedPipeline(T, T');
    LoansFrame(T, T');
    LookupsFrame(T, T');
    RowsSame(T, T');
  }

  lemma CommitsAppend(T: Table, c: Commit)
    requires CommitsOk(T) && CommitOk(T, c)
    requires forall i :: 0 <= i < |T.log.commits| ==>
      T.log.commits[i].kind != c.kind || T.log.commits[i].run != c.run
    ensures CommitsOk(PutCommit(T, c))
  {
    var T' := PutCommit(T, c);
    forall i | 0 <= i < |T'.log.commits| ensures CommitOk(T', T'.log.commits[i]) {
      if i < |T.log.commits| { assert CommitOk(T, T.log.commits[i]); }
    }
  }

  lemma CommitKeeps(T: Table, c: Commit)
    requires Inv(T) && CommitOk(T, c)
    requires forall i :: 0 <= i < |T.log.commits| ==>
      T.log.commits[i].kind != c.kind || T.log.commits[i].run != c.run
    ensures Inv(PutCommit(T, c)) && Evolves(T, PutCommit(T, c))
  {
    var T' := PutCommit(T, c);
    AppendFrame(T, T');
    RepliesFrame(T, T');
    CommitsAppend(T, c);
    CommitRest(T, c);
    hide PutCommit, Evolves, PipelineOk, ObjectsOk, ScansOk, LookupsOk, CommitsOk, LoansOk, RepliesOk, Bounded;
  }

  lemma CommitRest(T: Table, c: Commit)
    requires Inv(T)
    ensures ObjectsOk(PutCommit(T, c)) && ScansOk(PutCommit(T, c)) && Bounded(PutCommit(T, c))
  {
    hide PipelineOk, LookupsOk, CommitsOk, LoansOk, RepliesOk;
  }

  lemma StoredBodies(T: Table, identity: Identity, hash: RequestHash, body: ReplyBody)
    requires Inv(T) && identity !in T.idempotency && BodyTrue(T, body)
    requires Evolves(T, PutStored(T, identity, hash, body))
    ensures RepliesOk(PutStored(T, identity, hash, body))
  {
    var T' := PutStored(T, identity, hash, body);
    forall x | x in T'.idempotency ensures BodyTrue(T', T'.idempotency[x].body) {
      if x == identity {
        BodyStable(T, T', body);
      } else {
        BodyStable(T, T', T.idempotency[x].body);
      }
    }
  }

  lemma StoredExtends(T: Table, identity: Identity, hash: RequestHash, body: ReplyBody)
    requires identity !in T.idempotency
    ensures StoresExtend(T, PutStored(T, identity, hash, body))
    ensures LogExtends(T, PutStored(T, identity, hash, body))
  {
  }

  lemma StoredKeeps(T: Table, identity: Identity, hash: RequestHash, body: ReplyBody)
    requires Inv(T) && identity !in T.idempotency && BodyTrue(T, body)
    ensures Inv(PutStored(T, identity, hash, body))
    ensures Evolves(T, PutStored(T, identity, hash, body))
  {
    var T' := PutStored(T, identity, hash, body);
    StoredExtends(T, identity, hash, body);
    AppendFrame(T, T');
    CommitsFrame(T, T');
    StoredBodies(T, identity, hash, body);
    assert ObjectsOk(T') && ScansOk(T') && Bounded(T');
  }

  lemma ReplyBodies(T: Table, identity: Identity, hash: RequestHash, body: ReplyBody)
    requires Inv(T) && Find(T.idempotency, identity) == Some(Records.Stored(hash, body))
    requires Evolves(T, SendReply(T, identity, hash, body))
    ensures RepliesOk(SendReply(T, identity, hash, body))
  {
    var T' := SendReply(T, identity, hash, body);
    forall x | x in T'.idempotency ensures BodyTrue(T', T'.idempotency[x].body) {
      BodyStable(T, T', T.idempotency[x].body);
    }
  }

  lemma ReplyKeeps(T: Table, identity: Identity, hash: RequestHash, body: ReplyBody)
    requires Inv(T) && Find(T.idempotency, identity) == Some(Records.Stored(hash, body))
    ensures Inv(SendReply(T, identity, hash, body))
    ensures Evolves(T, SendReply(T, identity, hash, body))
  {
    var T' := SendReply(T, identity, hash, body);
    AppendFrame(T, T');
    ReplyBodies(T, identity, hash, body);
    EvolvesParts(T, T');
    ReplyRest(T, identity, hash, body);
    hide SendReply, Evolves, PipelineOk, ObjectsOk, ScansOk, LookupsOk, CommitsOk, LoansOk, RepliesOk, Bounded;
  }

  lemma ReplyRest(T: Table, identity: Identity, hash: RequestHash, body: ReplyBody)
    requires Inv(T) && UploadsEvolve(T, SendReply(T, identity, hash, body))
    ensures var T' := SendReply(T, identity, hash, body);
      ObjectsOk(T') && ScansOk(T') && Bounded(T') && CommitsOk(T')
  {
    var T' := SendReply(T, identity, hash, body);
    CommitsFrame(T, T');
    hide LookupsOk, CommitsOk, LoansOk, RepliesOk, UploadsEvolve;
  }
}
