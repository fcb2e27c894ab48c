/**
 The rows of the document pipeline (backend/app/db/models.py) and what the repositories ask of them.
 A table is a map from primary key to row; a query is the set of keys its WHERE clause selects.
 */
module Store {
  import opened Common
  import opened Audit

  datatype IngestionStatus = Pending | Stored | Queued | Processing | Completed | Failed

  datatype JobStatus = JobQueued | JobRunning | JobSucceeded | JobRetryableFailed | JobTerminalFailed

  datatype Batch = Batch(source: string, documentCount: nat)

  /** The object of document `d` is `originals/{d}.tiff`: its key is the document's id. */
  datatype Document = Document(
    batchId: Id, sourcePath: string, sourceFilename: string, sizeBytes: nat, checksum: string,
    blobKey: Option<Id>, status: IngestionStatus)

  datatype Job = Job(documentId: Id, rqJobId: nat, status: JobStatus, attemptCount: nat, lastError: Option<string>)

  datatype Prediction = Prediction(
    documentId: Id, modelMetadataId: Id, predictedClass: string, confidence: real, scores: map<string, real>,
    eligible: bool, reviewLabel: Option<string>, reviewer: Option<UserId>, reviewedAt: Option<int>)

  /** The overlay of document `d` is `overlays/overlays/{d}.png`. */
  datatype Overlay = Overlay(predictionId: Id, blobKey: Id)

  datatype Tables = Tables(
    batches: map<Id, Batch>, documents: map<Id, Document>, jobs: map<Id, Job>,
    predictions: map<Id, Prediction>, overlays: map<Id, Overlay>, events: seq<Event>)

  const EMPTY_TABLES := Tables(map[], map[], map[], map[], map[], [])

  const REVIEW_CONFIDENCE_THRESHOLD := 0.7

  /** What the classifier hands to `persist_result`. */
  datatype Inference = Inference(predictedClass: string, confidence: real, scores: map<string, real>)

  predicate Active(s: JobStatus) { s.JobQueued? || s.JobRunning? }

  predicate Settled(s: JobStatus) { s.JobSucceeded? || s.JobRetryableFailed? }

  // ---- queries ----

  function Duplicates(documents: map<Id, Document>, checksum: string, path: string): set<Id> {
    set d | d in documents && documents[d].checksum == checksum && documents[d].sourcePath == path
            && !documents[d].status.Failed?
  }

  function ActiveJobs(t: Tables, d: Id): set<Id> {
    set j | j in t.jobs && t.jobs[j].documentId == d && Active(t.jobs[j].status)
  }

  function PredictionsOf(t: Tables, d: Id): set<Id> {
    set p | p in t.predictions && t.predictions[p].documentId == d
  }

  function OverlaysOf(t: Tables, p: Id): set<Id> {
    set o | o in t.overlays && t.overlays[o].predictionId == p
  }

  // ---- what one transaction of ClassificationJobService writes ----

  function SetJob(t: Tables, j: Id, status: JobStatus, error: Option<string>): Tables
    requires j in t.jobs
  {
    t.(jobs := t.jobs[j := t.jobs[j].(status := status, lastError := error)])
  }

  function RunningRows(t: Tables, j: Id): Tables
    requires j in t.jobs
  {
    SetJob(t, j, JobRunning, t.jobs[j].lastError)
  }

  function FailureRows(t: Tables, j: Id, error: string): Tables
    requires j in t.jobs
  {
    var failed := SetJob(t, j, JobRetryableFailed, Some(error));
    failed.(events := failed.events + [ClassificationFailed(j, error)])
  }

  function NewPrediction(d: Id, meta: Id, r: Inference): Prediction {
    Prediction(d, meta, r.predictedClass, r.confidence, r.scores,
               r.confidence < REVIEW_CONFIDENCE_THRESHOLD, None, None, None)
  }

  /** Prediction `p` and its overlay `o` for document `d`, the job succeeded, one audit event. */
  function ResultRows(t: Tables, j: Id, d: Id, meta: Id, r: Inference, p: Id, o: Id): Tables
    requires j in t.jobs
  {
    var row := NewPrediction(d, meta, r);
    var done := SetJob(t, j, JobSucceeded, t.jobs[j].lastError);
    done.(predictions := t.predictions[p := row],
          overlays := t.overlays[o := Overlay(p, d)],
          events := t.events + [DocumentClassified(p, d, r.predictedClass, r.confidence, row.eligible)])
  }
}
