/**
 What holds in every reachable state of the pipeline, and why each step keeps it. Each part of the
 invariant names only the tables it speaks about, so a step has to argue only about what it writes.
 */
module ProtocolInvariant {
  import opened Common
  import opened Audit
  import opened Store
  import opened Protocol

  // ---- documents and batches ----

  ghost predicate FormOk(d: Id, doc: Document, hash: Bytes -> string, originals: map<Id, Bytes>) {
    match doc.status
    case Pending => doc.blobKey.None?
    case Stored => doc.blobKey == Some(d) && d in originals && hash(originals[d]) == doc.checksum
    case Queued => doc.blobKey == Some(d) && d in originals && hash(originals[d]) == doc.checksum
    case _ => false
  }

  ghost predicate FormsOk(documents: map<Id, Document>, hash: Bytes -> string, originals: map<Id, Bytes>) {
    forall d :: d in documents ==> FormOk(d, documents[d], hash, originals)
  }

  ghost predicate NoneQueued(documents: map<Id, Document>) {
    forall d :: d in documents ==> !documents[d].status.Queued?
  }

  predicate SameIdentity(a: Document, b: Document) {
    a.checksum == b.checksum && a.sourcePath == b.sourcePath
  }

  ghost predicate IdentitiesOk(documents: map<Id, Document>) {
    forall d, e :: d in documents && e in documents && SameIdentity(documents[d], documents[e]) ==> d == e
  }

  ghost predicate HasDocument(documents: map<Id, Document>, b: Id) {
    exists d :: d in documents && documents[d].batchId == b
  }

  /** Every batch holds exactly one document and counts it once it is queued. */
  ghost predicate BatchesOk(batches: map<Id, Batch>, documents: map<Id, Document>) {
    && (forall d :: d in documents ==> documents[d].batchId in batches)
    && (forall d :: d in documents ==>
          batches[documents[d].batchId].documentCount == if documents[d].status.Queued? then 1 else 0)
    && (forall d, e :: d in documents && e in documents && documents[d].batchId == documents[e].batchId ==> d == e)
    && (forall b :: b in batches ==> HasDocument(documents, b))
  }

  ghost predicate IngestedOnce(events: seq<Event>, documents: map<Id, Document>) {
    forall d :: Count(events, IngestedDocument(d)) == if d in documents && documents[d].status.Queued? then 1 else 0
  }

  // ---- jobs and results ----

  ghost predicate HasJob(jobs: map<Id, Job>, d: Id) {
    exists j :: j in jobs && jobs[j].documentId == d
  }

  ghost predicate JobsOk(jobs: map<Id, Job>, documents: map<Id, Document>) {
    && (forall j :: j in jobs ==> jobs[j].documentId in documents && documents[jobs[j].documentId].status.Queued?)
    && (forall j :: j in jobs ==> Active(jobs[j].status) || Settled(jobs[j].status))
    && (forall j, k :: j in jobs && k in jobs && jobs[j].documentId == jobs[k].documentId ==> j == k)
    && (forall d :: d in documents && documents[d].status.Queued? ==> HasJob(jobs, d))
  }

  ghost predicate HasSucceeded(jobs: map<Id, Job>, d: Id) {
    exists j :: j in jobs && jobs[j].documentId == d && jobs[j].status.JobSucceeded?
  }

  ghost predicate HasResult(predictions: map<Id, Prediction>, overlays: map<Id, Overlay>, d: Id) {
    exists p, o :: p in predictions && o in overlays && predictions[p].documentId == d && overlays[o] == Overlay(p, d)
  }

  ghost predicate PredictionsOk(jobs: map<Id, Job>, predictions: map<Id, Prediction>) {
    && (forall p :: p in predictions ==> HasSucceeded(jobs, predictions[p].documentId))
    && (forall p, q | p in predictions && q in predictions ::
          predictions[p].documentId == predictions[q].documentId ==> p == q)
  }

  ghost predicate OverlaysOk(predictions: map<Id, Prediction>, overlays: map<Id, Overlay>, objects: set<Id>) {
    && (forall o :: o in overlays ==> overlays[o].predictionId in predictions)
    && (forall o :: o in overlays ==> overlays[o].blobKey in objects)
    && (forall o, x | o in overlays && x in overlays ::
          overlays[o].predictionId == overlays[x].predictionId ==> o == x)
  }

  ghost predicate ResultsOk(jobs: map<Id, Job>, predictions: map<Id, Prediction>, overlays: map<Id, Overlay>) {
    forall j :: j in jobs && jobs[j].status.JobSucceeded? ==> HasResult(predictions, overlays, jobs[j].documentId)
  }

  ghost predicate ClassifiedOnce(events: seq<Event>, jobs: map<Id, Job>) {
    forall d :: Count(events, ClassifiedDocument(d)) == if HasSucceeded(jobs, d) then 1 else 0
  }

  // ---- processes ----

  predicate HoldsJob(m: Message) {
    m.state.Found? || m.state.Running? || m.state.Computed? || m.state.Saved? || m.state.Failing?
  }

  ghost predicate NotPending(documents: map<Id, Document>, d: Id) {
    d in documents ==> !documents[d].status.Pending?
  }

  /** A message names a document whose object is stored; a worker holds the one active job of its document. */
  ghost predicate MessageOk(m: Message, w: World) {
    && m.documentId in w.originals
    && NotPending(w.db.documents, m.documentId) && NotPending(w.pending.documents, m.documentId)
    && (HoldsJob(m) ==> HoldsActiveJob(m, w.db.jobs))
    && (m.state.Saved? ==> m.documentId in w.overlayObjects)
    && m.retriesLeft <= MAX_RETRIES
  }

  predicate HoldsActiveJob(m: Message, jobs: map<Id, Job>)
    requires HoldsJob(m)
  {
    && m.state.jobId in jobs && jobs[m.state.jobId].documentId == m.documentId
    && Active(jobs[m.state.jobId].status)
  }

  ghost predicate OneMessageEach(messages: seq<Message>) {
    forall i, k :: 0 <= i < k < |messages| ==> messages[i].documentId != messages[k].documentId
  }

  ghost predicate MessagesOk(w: World) {
    OneMessageEach(w.messages) && forall i :: 0 <= i < |w.messages| ==> MessageOk(w.messages[i], w)
  }

  ghost predicate NotEnqueued(messages: seq<Message>, d: Id) {
    forall i :: 0 <= i < |messages| ==> messages[i].documentId != d
  }

  ghost predicate IngestOk(w: World) {
    match w.ingest
    case Uploading(d, data, _) =>
      && d in w.pending.documents && w.pending.documents[d].status.Pending?
      && w.hash(data) == w.pending.documents[d].checksum && d !in w.originals
    case Enqueueing(d, _) =>
      d in w.pending.documents && w.pending.documents[d].status.Stored? && NotEnqueued(w.messages, d)
    case Committing(d, rq) =>
      && d in w.pending.documents && w.pending.documents[d].status.Stored?
      && rq < |w.messages| && w.messages[rq].documentId == d
    case _ => true
  }

  // ---- keys ----

  ghost predicate Below(keys: set<Id>, n: Id) {
    forall k :: k in keys ==> k < n
  }

  ghost predicate KeysOk(w: World) {
    && Below(w.db.batches.Keys, w.nextId) && Below(w.db.documents.Keys, w.nextId) && Below(w.db.jobs.Keys, w.nextId)
    && Below(w.db.predictions.Keys, w.nextId) && Below(w.db.overlays.Keys, w.nextId)
    && Below(w.pending.batches.Keys, w.nextId) && Below(w.pending.documents.Keys, w.nextId)
    && Below(w.originals.Keys, w.nextId)
    && w.db.documents.Keys !! w.pending.documents.Keys
    && w.db.batches.Keys !! w.pending.batches.Keys
  }

  ghost predicate Inv(w: World) {
    && KeysOk(w)
    && FormsOk(w.db.documents, w.hash, w.originals)
    && FormsOk(w.pending.documents, w.hash, w.originals) && NoneQueued(w.pending.documents)
    && IdentitiesOk(Visible(w))
    && BatchesOk(w.db.batches, w.db.documents) && BatchesOk(w.pending.batches, w.pending.documents)
    && IngestedOnce(w.db.events, w.db.documents)
    && JobsOk(w.db.jobs, w.db.documents)
    && PredictionsOk(w.db.jobs, w.db.predictions)
    && OverlaysOk(w.db.predictions, w.db.overlays, w.overlayObjects)
    && ResultsOk(w.db.jobs, w.db.predictions, w.db.overlays)
    && ClassifiedOnce(w.db.events, w.db.jobs)
    && MessagesOk(w)
    && IngestOk(w)
  }
}
