/** The promises of the pipeline, for every state that any interleaving can reach. */
module ProtocolTheorems {
  import opened Common
  import opened Audit
  import opened Store
  import opened Protocol
  import opened ProtocolInvariant
  import opened ProtocolFrames
  import opened ProtocolPreservation

  ghost predicate ExactlyOne<T(!new)>(s: set<T>) {
    exists x :: s == {x}
  }

  function JobsOf(t: Tables, d: Id): set<Id> {
    set j | j in t.jobs && t.jobs[j].documentId == d
  }

  function BatchDocuments(documents: map<Id, Document>, b: Id): set<Id> {
    set d | d in documents && documents[d].batchId == b
  }

  // ---- the three forms of a document ----

  ghost predicate HasObject(w: World, d: Id) {
    d in Visible(w) && Visible(w)[d].blobKey == Some(d) && d in w.originals
    && w.hash(w.originals[d]) == Visible(w)[d].checksum
  }

  ghost predicate Lifecycle(w: World, d: Id)
    requires d in Visible(w)
  {
    var events := Count(w.db.events, IngestedDocument(d));
    match Visible(w)[d].status
    case Pending => Visible(w)[d].blobKey.None? && JobsOf(w.db, d) == {} && events == 0
    case Stored => HasObject(w, d) && JobsOf(w.db, d) == {} && events == 0
    case Queued => HasObject(w, d) && ExactlyOne(JobsOf(w.db, d)) && events == 1
    case _ => false
  }

  /** In every reachable state, failures left in a shared session included. */
  lemma DocumentLifecycle(hash: Bytes -> string, steps: seq<Step>)
    ensures var w := Run(Start(hash), steps);
            && (forall d :: d in Visible(w) ==> Lifecycle(w, d))
            && (forall d, e :: d in Visible(w) && e in Visible(w) && SameIdentity(Visible(w)[d], Visible(w)[e]) ==>
                  d == e)
  {
    Reachable(hash, steps);
    var w := Run(Start(hash), steps);
    forall d | d in Visible(w) ensures Lifecycle(w, d) {
      LifecycleOf(w, d);
    }
  }

  lemma LifecycleOf(w: World, d: Id)
    requires Inv(w) && d in Visible(w)
    ensures Lifecycle(w, d)
  {
    hide IdentitiesOk, BatchesOk, PredictionsOk, OverlaysOk, ResultsOk, ClassifiedOnce, MessagesOk, IngestOk;
    if Visible(w)[d].status.Queued? {
      assert d in w.db.documents;
      var j :| j in w.db.jobs && w.db.jobs[j].documentId == d;
      assert JobsOf(w.db, d) == {j};
    } else {
      assert JobsOf(w.db, d) == {};
    }
  }

  /** Each batch, committed or not, holds one document and counts it exactly when it is queued. */
  lemma BatchCounts(hash: Bytes -> string, steps: seq<Step>, b: Id)
    requires var w := Run(Start(hash), steps); b in w.db.batches || b in w.pending.batches
    ensures var w := Run(Start(hash), steps);
            var batch := if b in w.db.batches then w.db.batches[b] else w.pending.batches[b];
            exists d :: BatchDocuments(Visible(w), b) == {d} && d in Visible(w)
              && batch.documentCount == if Visible(w)[d].status.Queued? then 1 else 0
  {
    Reachable(hash, steps);
    var w := Run(Start(hash), steps);
    hide FormsOk, NoneQueued, IdentitiesOk, BatchesOk, IngestedOnce, JobsOk, PredictionsOk, OverlaysOk, ResultsOk,
      ClassifiedOnce, MessagesOk, IngestOk;
    if b in w.db.batches {
      OneDocumentPerBatch(w.db.batches, w.db.documents, w.pending.batches, w.pending.documents, Visible(w), b);
    } else {
      OneDocumentPerBatch(w.pending.batches, w.pending.documents, w.db.batches, w.db.documents, Visible(w), b);
    }
  }

  lemma OneDocumentPerBatch(
    batches: map<Id, Batch>, documents: map<Id, Document>,
    otherBatches: map<Id, Batch>, otherDocuments: map<Id, Document>, all: map<Id, Document>, b: Id)
    requires BatchesOk(batches, documents) && BatchesOk(otherBatches, otherDocuments)
    requires batches.Keys !! otherBatches.Keys && documents.Keys !! otherDocuments.Keys && b in batches
    requires all.Keys == documents.Keys + otherDocuments.Keys
    requires forall d :: d in documents ==> all[d] == documents[d]
    requires forall d :: d in otherDocuments ==> all[d] == otherDocuments[d]
    ensures exists d :: BatchDocuments(all, b) == {d} && d in all
              && batches[b].documentCount == if all[d].status.Queued? then 1 else 0
  {
    var d :| d in documents && documents[d].batchId == b;
    assert BatchDocuments(all, b) == {d};
  }

  // ---- results ----

  ghost predicate FullyClassified(w: World, d: Id) {
    && (exists p, o :: PredictionsOf(w.db, d) == {p} && OverlaysOf(w.db, p) == {o} && o in w.db.overlays
                       && w.db.overlays[o].blobKey == d && d in w.overlayObjects)
    && Count(w.db.events, ClassifiedDocument(d)) == 1
  }

  ghost predicate Unclassified(w: World, d: Id) {
    PredictionsOf(w.db, d) == {} && Count(w.db.events, ClassifiedDocument(d)) == 0
  }

  /**
   A job is `succeeded` exactly when its document has its one prediction, one overlay row whose object
   exists and one event; the document of any other job, and a document without a job, has none of them.
   */
  lemma SucceededIffClassified(hash: Bytes -> string, steps: seq<Step>)
    ensures var w := Run(Start(hash), steps);
            && (forall j :: j in w.db.jobs ==>
                  if w.db.jobs[j].status.JobSucceeded? then FullyClassified(w, w.db.jobs[j].documentId)
                  else Unclassified(w, w.db.jobs[j].documentId))
            && (forall d :: JobsOf(w.db, d) == {} ==> Unclassified(w, d))
  {
    Reachable(hash, steps);
    var w := Run(Start(hash), steps);
    forall j | j in w.db.jobs
      ensures if w.db.jobs[j].status.JobSucceeded? then FullyClassified(w, w.db.jobs[j].documentId)
              else Unclassified(w, w.db.jobs[j].documentId)
    {
      var d := w.db.jobs[j].documentId;
      if w.db.jobs[j].status.JobSucceeded? {
        ClassifiedOf(w.db, w.overlayObjects, j);
      } else {
        assert !HasSucceeded(w.db.jobs, d);
        UnclassifiedOf(w.db, d);
      }
    }
    forall d | JobsOf(w.db, d) == {} ensures Unclassified(w, d) {
      assert forall j :: j in w.db.jobs && w.db.jobs[j].documentId == d ==> j in JobsOf(w.db, d);
      UnclassifiedOf(w.db, d);
    }
  }

  lemma ClassifiedOf(t: Tables, objects: set<Id>, j: Id)
    requires PredictionsOk(t.jobs, t.predictions) && OverlaysOk(t.predictions, t.overlays, objects)
    requires ResultsOk(t.jobs, t.predictions, t.overlays) && ClassifiedOnce(t.events, t.jobs)
    requires j in t.jobs && t.jobs[j].status.JobSucceeded?
    ensures var d := t.jobs[j].documentId;
            && (exists p, o :: PredictionsOf(t, d) == {p} && OverlaysOf(t, p) == {o} && o in t.overlays
                               && t.overlays[o].blobKey == d && d in objects)
            && Count(t.events, ClassifiedDocument(d)) == 1
  {
    var d := t.jobs[j].documentId;
    assert HasSucceeded(t.jobs, d);
    assert HasResult(t.predictions, t.overlays, d);
    hide HasSucceeded, ResultsOk, ClassifiedOnce;
    var p, o :| p in t.predictions && o in t.overlays && t.predictions[p].documentId == d
        && t.overlays[o] == Overlay(p, d);
    OnlyPrediction(t, p);
    OnlyOverlay(t, objects, o);
    hide PredictionsOk, OverlaysOk, HasResult, PredictionsOf, OverlaysOf;
  }

  lemma OnlyPrediction(t: Tables, p: Id)
    requires PredictionsOk(t.jobs, t.predictions) && p in t.predictions
    ensures PredictionsOf(t, t.predictions[p].documentId) == {p}
  {
    hide HasSucceeded;
  }

  lemma OnlyOverlay(t: Tables, objects: set<Id>, o: Id)
    requires OverlaysOk(t.predictions, t.overlays, objects) && o in t.overlays
    ensures OverlaysOf(t, t.overlays[o].predictionId) == {o} && t.overlays[o].blobKey in objects
  {}

  lemma UnclassifiedOf(t: Tables, d: Id)
    requires PredictionsOk(t.jobs, t.predictions) && ClassifiedOnce(t.events, t.jobs) && !HasSucceeded(t.jobs, d)
    ensures PredictionsOf(t, d) == {} && Count(t.events, ClassifiedDocument(d)) == 0
  {
    assert forall p :: p in t.predictions ==> t.predictions[p].documentId != d;
  }

  // ---- storage comes before queueing ----

  /**
   Every message, spent ones included, and every job row names a stored object; its hash is the document's checksum.
   */
  lemma StorageBeforeQueue(hash: Bytes -> string, steps: seq<Step>)
    ensures var w := Run(Start(hash), steps);
            && (forall i :: 0 <= i < |w.messages| ==> w.messages[i].documentId in w.originals)
            && (forall i :: 0 <= i < |w.messages| && w.messages[i].documentId in Visible(w) ==>
                  HasObject(w, w.messages[i].documentId))
            && (forall j :: j in w.db.jobs ==> HasObject(w, w.db.jobs[j].documentId))
  {
    Reachable(hash, steps);
    var w := Run(Start(hash), steps);
    forall i | 0 <= i < |w.messages| && w.messages[i].documentId in Visible(w)
      ensures HasObject(w, w.messages[i].documentId)
    {
      assert MessageOk(w.messages[i], w);
      ObjectOf(w, w.messages[i].documentId);
    }
    forall j | j in w.db.jobs ensures HasObject(w, w.db.jobs[j].documentId) {
      ObjectOf(w, w.db.jobs[j].documentId);
    }
    forall i | 0 <= i < |w.messages| ensures w.messages[i].documentId in w.originals {
      assert MessageOk(w.messages[i], w);
    }
  }

  lemma ObjectOf(w: World, d: Id)
    requires FormsOk(w.db.documents, w.hash, w.originals) && FormsOk(w.pending.documents, w.hash, w.originals)
    requires d in Visible(w) && !Visible(w)[d].status.Pending?
    ensures HasObject(w, d)
  {
    assert FormOk(d, Visible(w)[d], w.hash, w.originals);
  }

  /** No upload, retried or not, ever overwrites or removes an original. */
  lemma {:induction false} OriginalsAreImmutable(w: World, steps: seq<Step>, d: Id)
    requires Inv(w) && d in w.originals
    ensures d in Run(w, steps).originals && Run(w, steps).originals[d] == w.originals[d]
    decreases |steps|
  {
    if steps != [] {
      assert IngestOk(w);
      hide Inv;
      StepKeeps(w, steps[0]);
      OriginalsStep(w, steps[0], d);
      OriginalsAreImmutable(Next(w, steps[0]), steps[1..], d);
    }
  }

  lemma OriginalsStep(w: World, s: Step, d: Id)
    requires IngestOk(w) && d in w.originals
    ensures d in Next(w, s).originals && Next(w, s).originals[d] == w.originals[d]
  {
    hide Next, Enabled, CommitIngest, JobFrame;
    Frames(w, s);
  }

  // ---- single-row lookups ----

  /** No `scalar_one_or_none` of the pipeline can raise MultipleResultsFound. */
  lemma LookupsAreSafe(hash: Bytes -> string, steps: seq<Step>)
    ensures var w := Run(Start(hash), steps);
            && (forall c, p :: !ScalarOneOrNone(Duplicates(Visible(w), c, p)).ManyRows?)
            && (forall d :: !ScalarOneOrNone(ActiveJobs(w.db, d)).ManyRows?)
            && (forall d :: !ScalarOneOrNone(PredictionsOf(w.db, d)).ManyRows?)
            && (forall p :: !ScalarOneOrNone(OverlaysOf(w.db, p)).ManyRows?)
  {
    Reachable(hash, steps);
    hide KeysOk, FormsOk, NoneQueued, BatchesOk, IngestedOnce, ResultsOk, ClassifiedOnce, MessagesOk, IngestOk;
    var w := Run(Start(hash), steps);
    assert IdentitiesOk(Visible(w));
  }
}
