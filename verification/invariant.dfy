/** What every reachable table satisfies (`Inv`) and what every write only ever moves forward
    (`Evolves`). */
module Invariant {
  import opened Records

  // ------------------------------------------------------------- identifiers

  ghost predicate Bounded(T: Table) {
    && (forall i :: i in T.instances ==> i < T.next)
    && (forall i :: i in T.outbox ==> i < T.next)
    && (forall i :: i in T.documents ==> i < T.next)
    && (forall i :: i in T.uploads ==> i < T.next)
    && (forall i :: i in T.objects ==> i < T.next)
    && (forall i :: i in T.signals ==> i < T.next)
    && (forall i :: i in T.log.runOf ==> i < T.next)
    && (forall i :: i in T.log.born ==> i in T.documents)
    && (forall i :: i in T.log.ordinal ==> i in T.uploads)
    && (forall i :: i in T.log.archivedAs ==> i in T.instances)
    && (forall p :: p in T.log.manifests ==> p in T.loanArchives)
    && (forall p :: p in T.scans ==> p.0 in T.uploads)
    && T.pending <= T.signals.Keys
  }

  // -------------------------------------------------------- uploads, documents

  predicate Current(T: Table, u: Id)
    requires u in T.uploads && T.uploads[u].document in T.documents
  {
    T.documents[T.uploads[u].document].currentUpload == Some(u)
  }

  ghost predicate Stored(T: Table, ref: Ref) {
    ref.version in T.objects && T.objects[ref.version].key == ref.key
  }

  /** Exact-version lineage of an upload's artifacts, whatever happened to it later. */
  ghost predicate Lineage(T: Table, u: Id, U: Upload) {
    && (U.sourceVersion.Some? ==> Stored(T, Ref(SourceKey(u), U.sourceVersion.value)))
    && (Admitted(U.status) ==> U.screenInput.Some?)
    && (U.screenInput.Some? ==>
          && U.completed && U.run.Some? && U.sourceVersion.Some?
          && Rank(U.status) >= Rank(Queued)
          && (u, U.sourceVersion.value) in T.log.clean
          && U.screenInput.value.key == ScreenKey(U.run.value, u)
          && Stored(T, U.screenInput.value)
          && T.objects[U.screenInput.value.version].content == CopyOf(U.sourceVersion.value))
    && (U.status.Extracting? || U.status.Succeeded? ==> U.selected.Some?)
    && (U.selected.Some? <==> U.fullInput.Some?)
    && (U.selected.Some? ==>
          && U.screenInput.Some?
          && Rank(U.status) >= Rank(Extracting)
          && U.selected.value.key == SelectedKey(U.run.value)
          && Stored(T, U.selected.value)
          && T.objects[U.selected.value.version].content.PagesOf?
          && T.objects[U.selected.value.version].content.version == U.sourceVersion.value
          && U.fullInput.value.key == FullKey(U.run.value, u)
          && Stored(T, U.fullInput.value)
          && T.objects[U.fullInput.value.version].content == CopyOf(U.selected.value.version))
    && (U.status.Succeeded? ==> U.dataPoints.Some?)
    && (U.dataPoints.Some? ==>
          && U.selected.Some?
          && Terminal(U.status)
          && U.dataPoints.value.key == DataPointsKey(U.run.value)
          && Stored(T, U.dataPoints.value)
          && T.objects[U.dataPoints.value.version].content == Extracted(U.run.value))
  }

  /** What an upload row says about itself. */
  ghost predicate Shape(T: Table, u: Id, U: Upload) {
    && !U.status.Archived?
    && (U.completed <==> U.run.Some?) && (U.completed <==> U.sourceVersion.Some?)
    && (U.status.AwaitingUpload? ==> !U.completed)
    && (U.status.Validating? || Admitted(U.status) ==> U.completed)
    && (U.run.Some? ==> U.run.value in T.log.runOf && T.log.runOf[U.run.value] == u)
    && (U.lease.Some? ==> Find(T.log.validationLease, u) == Some(U.lease.value.token))
    && Lineage(T, u, U)
  }

  ghost predicate UploadOk(T: Table, u: Id)
    requires u in T.uploads
  {
    var U := T.uploads[u];
    && U.document in T.documents
    && U.document in T.log.born && u in T.log.ordinal
    && T.log.ordinal[u] < |T.log.born[U.document]|
    && T.log.born[U.document][T.log.ordinal[u]] == u
    && (Current(T, u) || Terminal(U.status))
    && Shape(T, u, U)
  }

  /** The only disagreement a run can show between a document and its current upload. */
  predicate Lag(D: Document, U: Upload) {
    D.status.Screening? && U.status.Queued?
  }

  /** The source reference a document of this upload carries. */
  function SourceRef(u: Id, U: Upload): Option<Ref> {
    if U.screenInput.Some? && U.sourceVersion.Some? then
      Some(Ref(SourceKey(u), U.sourceVersion.value))
    else None
  }

  predicate Agrees(D: Document, u: Id, U: Upload) {
    && (D.status == U.status || Lag(D, U))
    && D.run == U.run
    && D.source == SourceRef(u, U)
    && D.selected == U.selected
    && D.dataPoints == U.dataPoints
    && D.failureCode == U.failureCode
    && (U.screenInput.Some? ==> D.screenInput == U.screenInput)
    && (U.fullInput.Some? ==> D.fullInput == U.fullInput)
  }

  /** An input reference on a document, current or left over, was pinned by the upload its key names. */
  ghost predicate PinOk(T: Table, D: Document) {
    && (D.screenInput.Some? ==>
          && D.screenInput.value.key.ScreenKey?
          && var u := D.screenInput.value.key.upload;
          && u in T.uploads && T.uploads[u].screenInput == D.screenInput)
    && (D.fullInput.Some? ==>
          && D.fullInput.value.key.FullKey?
          && var u := D.fullInput.value.key.upload;
          && u in T.uploads && T.uploads[u].fullInput == D.fullInput)
  }

  function CurrentCount(D: Document): nat { if D.currentUpload.Some? then 1 else 0 }

  ghost predicate DocumentOk(T: Table, d: Id)
    requires d in T.documents
  {
    var D := T.documents[d];
    && D.instance in T.instances
    && d in T.log.born
    && (D.currentUpload.None? <==> D.status.Archived?)
    && |T.log.born[d]| == D.lastArchive + CurrentCount(D)
    && (D.currentUpload.Some? ==>
          && var u := D.currentUpload.value;
          && T.log.born[d][D.lastArchive] == u
          && u in T.uploads && T.uploads[u].document == d
          && Agrees(D, u, T.uploads[u]))
    && (D.lease.Some? ==> Find(T.log.postprocessLease, d) == Some(D.lease.value.token))
    && PinOk(T, D)
  }

  ghost predicate BornOk(T: Table, d: Id)
    requires d in T.log.born
  {
    forall i :: 0 <= i < |T.log.born[d]| ==>
      var u := T.log.born[d][i];
      u in T.uploads && T.uploads[u].document == d && Find(T.log.ordinal, u) == Some(i)
  }

  /** An archive row names the upload of its place and holds exactly that upload's references. */
  ghost predicate ArchiveOk(T: Table, p: (Id, nat))
    requires p in T.archives
  {
    var A := T.archives[p];
    && p.0 in T.documents && p.0 in T.log.born
    && 1 <= p.1 <= T.documents[p.0].lastArchive && p.1 <= |T.log.born[p.0]|
    && T.log.born[p.0][p.1 - 1] == A.upload
    && A.upload in T.uploads
    && ArchiveHolds(A, T.uploads[A.upload])
  }

  ghost predicate ArchiveHolds(A: DocumentArchive, U: Upload) {
    && Terminal(U.status)
    && A.run == U.run && A.source == SourceRef(A.upload, U)
    && A.selected == U.selected && A.dataPoints == U.dataPoints
  }

  ghost predicate UploadsOk(T: Table) {
    forall u {:trigger UploadOk(T, u)} :: u in T.uploads ==> UploadOk(T, u)
  }

  ghost predicate DocumentsOk(T: Table) {
    forall d {:trigger DocumentOk(T, d)} :: d in T.documents ==> DocumentOk(T, d)
  }

  ghost predicate BornsOk(T: Table) {
    forall d {:trigger BornOk(T, d)} :: d in T.log.born ==> BornOk(T, d)
  }

  /** Archive rows of a document are exactly 1..lastArchive. */
  ghost predicate ArchivesOk(T: Table) {
    && (forall p {:trigger ArchiveOk(T, p)} :: p in T.archives ==> ArchiveOk(T, p))
    && (forall d, i: nat :: d in T.documents && 1 <= i <= T.documents[d].lastArchive ==> (d, i) in T.archives)
  }

  ghost predicate PipelineOk(T: Table) {
    && UploadsOk(T) && DocumentsOk(T) && BornsOk(T) && ArchivesOk(T)
  }

  // ----------------------------------------------------- objects, scans, lookups

  ghost predicate ObjectsOk(T: Table) {
    && (forall k :: k in T.latest ==> T.latest[k] in T.objects && T.objects[T.latest[k]].key == k)
    && (forall v :: v in T.objects && T.objects[v].locator.Some? ==> LocatorOk(T.objects[v]))
  }

  predicate LocatorOk(o: Object)
    requires o.locator.Some?
  {
    var l := o.locator.value;
    o.key == (if l.stage.Screen? then ScreenKey(l.run, l.upload) else FullKey(l.run, l.upload))
  }

  ghost predicate ScansOk(T: Table) {
    forall p :: p in T.scans && T.scans[p].verdict.Clean? ==>
      T.scans[p].scanCompleted && p in T.log.clean
  }

  /** A workflow lookup names an upload of that run which has been queued. */
  ghost predicate LookupOk(T: Table, k: LookupKey)
    requires k in T.lookups
  {
    Routed(T, k.upload, T.lookups[k].document, T.lookups[k].run)
  }

  ghost predicate LookupsOk(T: Table) {
    forall k {:trigger LookupOk(T, k)} :: k in T.lookups ==> LookupOk(T, k)
  }

  ghost predicate Routed(T: Table, u: Id, d: Id, run: Id) {
    u in T.uploads && T.uploads[u].document == d && T.uploads[u].run == Some(run)
    && T.uploads[u].screenInput.Some?
  }

  // ------------------------------------------------------------------ commits

  function KindRank(kind: CommitKind): nat {
    match kind
    case ToQueued => Rank(Queued)
    case ToExtracting => Rank(Extracting)
    case ToSucceeded => Rank(Succeeded)
  }

  ghost predicate CommitOk(T: Table, c: Commit) {
    && c.latest == Some(c.token)
    && c.upload in T.uploads
    && T.uploads[c.upload].run == Some(c.run)
    && Rank(T.uploads[c.upload].status) >= KindRank(c.kind)
  }

  ghost predicate CommitsOk(T: Table) {
    && (forall i {:trigger CommitOk(T, T.log.commits[i])} :: 0 <= i < |T.log.commits| ==> CommitOk(T, T.log.commits[i]))
    && (forall i, j :: 0 <= i < j < |T.log.commits| ==>
          T.log.commits[i].kind != T.log.commits[j].kind
          || T.log.commits[i].run != T.log.commits[j].run)
  }

  // -------------------------------------------------------------------- loans

  ghost predicate HeadOk(T: Table, l: LoanKey)
    requires l in T.heads
  {
    var H := T.heads[l];
    && (H.active <==> H.current.Some?)
    && H.revision == 2 * H.lastArchive + (if H.current.Some? then 1 else 0)
    && (H.current.Some? ==> H.current.value in T.instances
                            && T.instances[H.current.value] == Instance(l, true)
                            && H.current.value !in T.log.archivedAs)
    && (forall n: nat :: 1 <= n <= H.lastArchive ==> (l, n) in T.loanArchives)
  }

  ghost predicate InstanceOk(T: Table, i: Id)
    requires i in T.instances
  {
    var I := T.instances[i];
    && I.loan in T.heads
    && (I.active <==> T.heads[I.loan].current == Some(i))
    && (!I.active <==> i in T.log.archivedAs)
    && (!I.active ==> (I.loan, T.log.archivedAs[i]) in T.loanArchives
                      && T.loanArchives[(I.loan, T.log.archivedAs[i])].instance == i)
  }

  ghost predicate LoanArchiveOk(T: Table, p: (LoanKey, nat))
    requires p in T.loanArchives
  {
    var A := T.loanArchives[p];
    && p.0 in T.heads && 1 <= p.1 <= T.heads[p.0].lastArchive
    && A.instance in T.instances && T.instances[A.instance] == Instance(p.0, false)
    && Find(T.log.archivedAs, A.instance) == Some(p.1)
    && p in T.log.eventOf && T.log.eventOf[p] in T.outbox
    && T.outbox[T.log.eventOf[p]] == OutboxEvent(p.0, A.instance, p.1)
    && p in T.log.manifests && ManifestOk(T, p, A, T.log.manifests[p])
  }

  const MAX_DOCUMENTS: nat := 500
  const MAX_MANIFEST_BYTES: nat := 4 * 1024 * 1024

  predicate DistinctIds(documents: seq<ManifestDocument>) {
    forall i, j :: 0 <= i < j < |documents| ==> documents[i].documentId != documents[j].documentId
  }

  /** The archive row pins an object that holds exactly the serialized manifest. */
  ghost predicate ManifestOk(T: Table, p: (LoanKey, nat), A: LoanArchive, m: Manifest) {
    && m.tenant == p.0.tenant && m.loanId == p.0.loanId
    && m.instance == A.instance && m.sequence == p.1
    && A.documentCount == |m.documents| <= MAX_DOCUMENTS
    && DistinctIds(m.documents)
    && ManifestStored(T, A, m)
  }

  ghost predicate ManifestStored(T: Table, A: LoanArchive, m: Manifest) {
    && Stored(T, A.manifest)
    && A.manifest.key == ManifestKey(m.instance, m.sequence)
    && var o := T.objects[A.manifest.version];
    && o.content.Body? && o.content.bytes.Json?
    && o.content.bytes.parsed == m && o.content.bytes.length <= MAX_MANIFEST_BYTES
    && A.checksum == Sha256(o.content.bytes)
  }

  ghost predicate LoansOk(T: Table) {
    && (forall l {:trigger HeadOk(T, l)} :: l in T.heads ==> HeadOk(T, l))
    && (forall i {:trigger InstanceOk(T, i)} :: i in T.instances ==> InstanceOk(T, i))
    && (forall p {:trigger LoanArchiveOk(T, p)} :: p in T.loanArchives ==> LoanArchiveOk(T, p))
    && (forall e {:trigger EventOk(T, e)} :: e in T.outbox ==> EventOk(T, e))
  }

  /** An outbox event announces one archive and is the only one to do so. */
  ghost predicate EventOk(T: Table, e: Id)
    requires e in T.outbox
  {
    var p := (T.outbox[e].loan, T.outbox[e].sequence);
    Find(T.log.eventOf, p) == Some(e) && p in T.loanArchives
  }

  // -------------------------------------------------------------- idempotency

  /** A stored reply names something the registry really holds. */
  ghost predicate BodyTrue(T: Table, b: ReplyBody) {
    match b
    case LoanCreated(l, i) => i in T.instances && T.instances[i].loan == l
    case UploadSession(d, u) => u in T.uploads && T.uploads[u].document == d
    case UploadCompleted(d, u, run, _) =>
      u in T.uploads && T.uploads[u].document == d && T.uploads[u].run == Some(run)
    case DocumentArchived(d, u, n) => (d, n) in T.archives && T.archives[(d, n)].upload == u
    case LoanArchived(l, i, n, count) =>
      (l, n) in T.loanArchives && T.loanArchives[(l, n)].instance == i
      && T.loanArchives[(l, n)].documentCount == count
  }

  ghost predicate RepliesOk(T: Table) {
    && (forall x {:trigger BodyTrue(T, T.idempotency[x].body)} :: x in T.idempotency ==> BodyTrue(T, T.idempotency[x].body))
    && (forall i :: 0 <= i < |T.log.effects| ==> T.log.effects[i] in T.idempotency)
    && (forall i, j :: 0 <= i < j < |T.log.effects| ==> T.log.effects[i] != T.log.effects[j])
    && (forall r :: r in T.log.replies ==>
          Find(T.idempotency, r.identity) == Some(Records.Stored(r.hash, r.body)))
  }

  ghost predicate Inv(T: Table) {
    && Bounded(T)
    && PipelineOk(T)
    && ObjectsOk(T)
    && ScansOk(T)
    && LookupsOk(T)
    && CommitsOk(T)
    && LoansOk(T)
    && RepliesOk(T)
  }

  // ---------------------------------------------------------------- evolution

  /** What no write touches once an upload is terminal. */
  ghost predicate Frozen(U: Upload, U': Upload) {
    && U'.completed == U.completed && U'.run == U.run && U'.sourceVersion == U.sourceVersion
    && U'.screenInput == U.screenInput && U'.selected == U.selected
    && U'.fullInput == U.fullInput && U'.dataPoints == U.dataPoints
  }

  /** SUCCEEDED and FAILED are only ever left: an upload that was terminal before has kept its failure
      code if it still shows one of them. */
  predicate CodeStays(U: Upload, U': Upload) {
    Rank(U.status) >= 5 && (U'.status.Succeeded? || U'.status.Failed?) ==>
      U'.status == U.status && U'.failureCode == U.failureCode
  }

  /** Rank never falls and every pinned field is written once. */
  ghost predicate UploadForward(U: Upload, U': Upload) {
    && CodeStays(U, U')
    && U'.document == U.document
    && Rank(U.status) <= Rank(U'.status)
    && (U.completed ==> U'.completed && U'.run == U.run && U'.sourceVersion == U.sourceVersion)
    && (U.screenInput.Some? ==> U'.screenInput == U.screenInput)
    && (U.selected.Some? ==> U'.selected == U.selected && U'.fullInput == U.fullInput)
    && (U.dataPoints.Some? ==> U'.dataPoints == U.dataPoints)
    && (Rank(U.status) >= 5 ==> Frozen(U, U'))
  }

  ghost predicate UploadEvolves(T: Table, T': Table, u: Id)
    requires u in T.uploads
  {
    && u in T'.uploads
    && var U, U' := T.uploads[u], T'.uploads[u];
    && UploadForward(U, U')
    && U.document in T.documents && U.document in T'.documents
    && (Current(T', u) ==>
          Current(T, u) && Rank(T.documents[U.document].status) <= Rank(T'.documents[U.document].status))
  }

  predicate SameFailure(D: Document, D': Document) {
    D'.terminalKind == D.terminalKind && D'.failedExecution == D.failedExecution
  }

  /** Uploads created, then rank: the progress measure of a document. Once terminal, a document keeps
      what it recorded of its failing execution until it gets another upload. */
  ghost predicate DocumentEvolves(T: Table, T': Table, d: Id)
    requires d in T.documents
  {
    && d in T'.documents
    && T'.documents[d].instance == T.documents[d].instance
    && T.documents[d].lastArchive <= T'.documents[d].lastArchive
    && d in T.log.born && d in T'.log.born
    && T.log.born[d] <= T'.log.born[d]
    && (T.log.born[d] == T'.log.born[d] ==>
          Rank(T.documents[d].status) <= Rank(T'.documents[d].status)
          && (Rank(T.documents[d].status) >= 5 ==> SameFailure(T.documents[d], T'.documents[d])))
  }

  ghost predicate LookupEvolves(T: Table, T': Table, k: LookupKey)
    requires k in T.lookups
  {
    && k in T'.lookups
    && (!T.lookups[k].status.LookupRunning? ==>
          && !T'.lookups[k].status.LookupRunning?
          && (T.lookups[k].marker.None? ==> T'.lookups[k].marker.None?))
  }

  ghost predicate InstanceEvolves(T: Table, T': Table, i: Id)
    requires i in T.instances
  {
    i in T'.instances && T'.instances[i].loan == T.instances[i].loan
    && (T'.instances[i].active ==> T.instances[i].active)
  }

  ghost predicate HeadEvolves(T: Table, T': Table, l: LoanKey)
    requires l in T.heads
  {
    l in T'.heads && T.heads[l].lastArchive <= T'.heads[l].lastArchive
    && T.heads[l].revision <= T'.heads[l].revision
  }

  ghost predicate UploadsEvolve(T: Table, T': Table) {
    forall u {:trigger UploadEvolves(T, T', u)} :: u in T.uploads ==> UploadEvolves(T, T', u)
  }

  ghost predicate DocumentsEvolve(T: Table, T': Table) {
    forall d {:trigger DocumentEvolves(T, T', d)} :: d in T.documents ==> DocumentEvolves(T, T', d)
  }

  ghost predicate RowsEvolve(T: Table, T': Table) {
    && (forall k {:trigger LookupEvolves(T, T', k)} :: k in T.lookups ==> LookupEvolves(T, T', k))
    && (forall i {:trigger InstanceEvolves(T, T', i)} :: i in T.instances ==> InstanceEvolves(T, T', i))
    && (forall l {:trigger HeadEvolves(T, T', l)} :: l in T.heads ==> HeadEvolves(T, T', l))
  }

  /** Append-only parts: a row there never changes. */
  ghost predicate StoresExtend(T: Table, T': Table) {
    && Extends(T.objects, T'.objects)
    && Extends(T.idempotency, T'.idempotency)
    && Extends(T.archives, T'.archives)
    && Extends(T.loanArchives, T'.loanArchives)
    && Extends(T.outbox, T'.outbox)
    && Extends(T.signals, T'.signals)
  }

  ghost predicate LogExtends(T: Table, T': Table) {
    && T.next <= T'.next
    && T.scans.Keys <= T'.scans.Keys
    && T.log.clean <= T'.log.clean
    && T.log.commits <= T'.log.commits
    && T.log.effects <= T'.log.effects
    && T.log.replies <= T'.log.replies
    && Extends(T.log.ordinal, T'.log.ordinal)
    && Extends(T.log.manifests, T'.log.manifests)
  }

  ghost predicate Evolves(T: Table, T': Table) {
    && UploadsEvolve(T, T')
    && DocumentsEvolve(T, T')
    && RowsEvolve(T, T')
    && StoresExtend(T, T')
    && LogExtends(T, T')
  }

  lemma UploadEvolvesTransitive(T0: Table, T1: Table, T2: Table, u: Id)
    requires u in T0.uploads && UploadEvolves(T0, T1, u) && UploadEvolves(T1, T2, u)
    ensures UploadEvolves(T0, T2, u)
  {
  }

  lemma UploadsTransitive(T0: Table, T1: Table, T2: Table)
    requires UploadsEvolve(T0, T1) && UploadsEvolve(T1, T2)
    ensures UploadsEvolve(T0, T2)
  {
    forall u | u in T0.uploads ensures UploadEvolves(T0, T2, u) {
      assert UploadEvolves(T0, T1, u) && UploadEvolves(T1, T2, u);
      UploadEvolvesTransitive(T0, T1, T2, u);
    }
  }

  lemma DocumentsTransitive(T0: Table, T1: Table, T2: Table)
    requires DocumentsEvolve(T0, T1) && DocumentsEvolve(T1, T2)
    ensures DocumentsEvolve(T0, T2)
  {
    forall d | d in T0.documents ensures DocumentEvolves(T0, T2, d) {
      assert DocumentEvolves(T0, T1, d) && DocumentEvolves(T1, T2, d);
    }
  }

  lemma RowsTransitive(T0: Table, T1: Table, T2: Table)
    requires RowsEvolve(T0, T1) && RowsEvolve(T1, T2)
    ensures RowsEvolve(T0, T2)
  {
    forall k | k in T0.lookups ensures LookupEvolves(T0, T2, k) {
      assert LookupEvolves(T0, T1, k) && LookupEvolves(T1, T2, k);
    }
    forall i | i in T0.instances ensures InstanceEvolves(T0, T2, i) {
      assert InstanceEvolves(T0, T1, i) && InstanceEvolves(T1, T2, i);
    }
    forall l | l in T0.heads ensures HeadEvolves(T0, T2, l) {
      assert HeadEvolves(T0, T1, l) && HeadEvolves(T1, T2, l);
    }
  }

  lemma ExtendsTransitive<K, V>(a: map<K, V>, b: map<K, V>, c: map<K, V>)
    requires Extends(a, b) && Extends(b, c)
    ensures Extends(a, c)
  {
  }

  lemma StoresTransitive(T0: Table, T1: Table, T2: Table)
    requires StoresExtend(T0, T1) && StoresExtend(T1, T2)
    ensures StoresExtend(T0, T2)
  {
    ExtendsTransitive(T0.objects, T1.objects, T2.objects);
    ExtendsTransitive(T0.idempotency, T1.idempotency, T2.idempotency);
    ExtendsTransitive(T0.archives, T1.archives, T2.archives);
    ExtendsTransitive(T0.loanArchives, T1.loanArchives, T2.loanArchives);
    ExtendsTransitive(T0.outbox, T1.outbox, T2.outbox);
    ExtendsTransitive(T0.signals, T1.signals, T2.signals);
  }

  lemma LogTransitive(T0: Table, T1: Table, T2: Table)
    requires LogExtends(T0, T1) && LogExtends(T1, T2)
    ensures LogExtends(T0, T2)
  {
    ExtendsTransitive(T0.log.ordinal, T1.log.ordinal, T2.log.ordinal);
    ExtendsTransitive(T0.log.manifests, T1.log.manifests, T2.log.manifests);
  }

  lemma {:induction false} EvolvesTransitive(T0: Table, T1: Table, T2: Table)
    requires Evolves(T0, T1) && Evolves(T1, T2)
    ensures Evolves(T0, T2)
  {
    UploadsTransitive(T0, T1, T2);
    DocumentsTransitive(T0, T1, T2);
    RowsTransitive(T0, T1, T2);
    StoresTransitive(T0, T1, T2);
    LogTransitive(T0, T1, T2);
  }
}
