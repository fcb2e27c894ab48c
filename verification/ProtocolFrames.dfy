/** What a step leaves alone: one lemma for each action, and two for all steps of a kind. */
module ProtocolFrames {
  import opened Common
  import opened Store
  import opened Protocol
  import opened ProtocolInvariant

  // ---- inference workers ----

  /** The only job row that may change is the one the message holds, and only in status and error. */
  ghost predicate JobFrame(m: Message, before: map<Id, Job>, after: map<Id, Job>) {
    || after == before
    || (HoldsJob(m) && m.state.jobId in before && exists status, error ::
          after == before[m.state.jobId := before[m.state.jobId].(status := status, lastError := error)])
  }

  /** How far a delivery still has to go. */
  function Rank(state: Delivery): nat {
    match state
    case Waiting => 7
    case Found(_) => 6
    case Running(_) => 5
    case Computed(_, _) => 4
    case Saved(_, _) => 3
    case Failing(_, _) => 2
    case Persisted => 1
    case _ => 0
  }

  /** A message goes back to the queue, or on within its delivery. */
  predicate Advances(m: Message, n: Message) {
    (n == Requeue(m) && Rank(m.state) > 0)
        || (n == m.(state := n.state) && Rank(n.state) < Rank(m.state) && n.state != Dead)
  }

  /**
   Worker `i` writes its own message, job row, results and events, overlays and keys; nothing of the ingestion
   worker.
   */
  ghost predicate WorkerFrame(w: World, i: nat, n: World)
    requires i < |w.messages|
  {
    && n.hash == w.hash && n.pending == w.pending && n.originals == w.originals && n.ingest == w.ingest
    && n.db.batches == w.db.batches && n.db.documents == w.db.documents && w.db.events <= n.db.events
    && |n.messages| == |w.messages| && n.messages == w.messages[i := n.messages[i]]
    && Advances(w.messages[i], n.messages[i])
    && JobFrame(w.messages[i], w.db.jobs, n.db.jobs)
  }

  lemma PutFrame(w: World, i: nat, m: Message)
    requires i < |w.messages| && Advances(w.messages[i], m)
    ensures WorkerFrame(w, i, Put(w, i, m))
  {}

  lemma DeliverFrame(w: World, i: nat)
    requires i < |w.messages| && w.messages[i].state.Waiting?
    ensures WorkerFrame(w, i, DeliverMessage(w, i))
  {
    hide ActiveJobs;
  }

  lemma StartFrame(w: World, i: nat)
    requires i < |w.messages| && w.messages[i].state.Found?
    ensures WorkerFrame(w, i, StartJob(w, i))
  {}

  lemma ComputeFrame(w: World, i: nat, result: Option<Inference>)
    requires i < |w.messages| && w.messages[i].state.Running?
    ensures WorkerFrame(w, i, RunPipeline(w, i, result))
  {}

  lemma OverlayFrame(w: World, i: nat, outcome: Call)
    requires i < |w.messages| && w.messages[i].state.Computed?
    ensures WorkerFrame(w, i, UploadOverlay(w, i, outcome))
  {}

  lemma PersistFrame(w: World, i: nat, publishes: bool)
    requires i < |w.messages| && w.messages[i].state.Saved?
    ensures WorkerFrame(w, i, PersistResult(w, i, publishes))
  {
    hide NewPrediction;
  }

  lemma FailFrame(w: World, i: nat)
    requires i < |w.messages| && w.messages[i].state.Failing?
    ensures WorkerFrame(w, i, FailJob(w, i))
  {}

  lemma WorkerFrames(w: World, s: Step)
    requires IsWorkerStep(s) && Enabled(w, s)
    ensures s.message < |w.messages| && WorkerFrame(w, s.message, Next(w, s))
  {
    hide WorkerFrame, DeliverMessage, StartJob, RunPipeline, UploadOverlay, PersistResult, FailJob, Put;
    match s
    case Deliver(i) => DeliverFrame(w, i);
    case MarkRunning(i) => StartFrame(w, i);
    case Compute(i, result) => ComputeFrame(w, i, result);
    case SaveOverlay(i, outcome) => OverlayFrame(w, i, outcome);
    case Persist(i, publishes) => PersistFrame(w, i, publishes);
    case RecordFailure(i) => FailFrame(w, i);
    case Acknowledge(i) => PutFrame(w, i, w.messages[i].(state := Finished));
    case Crash(i) => PutFrame(w, i, Requeue(w.messages[i]));
  }

  // ---- the ingestion worker ----

  ghost predicate Pushes(w: World, messages: seq<Message>) {
    || messages == w.messages
    || (w.ingest.Enqueueing?
        && messages == w.messages + [Message(w.ingest.documentId, w.ingest.meta, MAX_RETRIES, Waiting)])
  }

  /**
   The ingestion worker adds at most one message, one object, one job, and events; it touches nothing that is there.
   */
  ghost predicate IngestFrame(w: World, n: World) {
    && n.hash == w.hash && n.overlayObjects == w.overlayObjects
    && n.db.predictions == w.db.predictions && n.db.overlays == w.db.overlays && w.db.events <= n.db.events
    && Pushes(w, n.messages)
    && (n.originals == w.originals
        || (w.ingest.Uploading? && n.originals == w.originals[w.ingest.documentId := w.ingest.data]))
    && (n.db.jobs == w.db.jobs
        || (w.ingest.Committing? && n == CommitIngest(w) && n.db.jobs
              == w.db.jobs[w.nextId := Job(w.ingest.documentId, w.ingest.rqJobId, JobQueued, 1, None)]))
  }

  lemma BeginFrame(w: World, path: string, filename: string, data: Bytes, meta: Id)
    ensures IngestFrame(w, BeginIngest(w, path, filename, data, meta))
  {
    hide IsTiff, Duplicates, SourceDir, CommitIngest;
  }

  lemma UploadFrame(w: World, outcome: Call)
    requires w.ingest.Uploading?
    ensures IngestFrame(w, UploadOriginal(w, outcome))
  {
    hide CommitIngest;
  }

  lemma EnqueueFrame(w: World, outcome: Call)
    requires w.ingest.Enqueueing?
    ensures IngestFrame(w, EnqueueMessage(w, outcome))
  {
    hide CommitIngest;
  }

  lemma DropFrame(w: World)
    ensures IngestFrame(w, Drop(w)) && IngestFrame(w, RollBack(w))
  {
    hide CommitIngest;
  }

  lemma CommitFrame(w: World)
    requires w.ingest.Committing?
    ensures IngestFrame(w, CommitIngest(w))
  {}

  lemma RejectionFrame(w: World)
    requires w.ingest.Rejecting?
    ensures IngestFrame(w, CommitRejection(w))
  {
    hide CommitIngest;
  }

  lemma IngestFrames(w: World, s: Step)
    requires !IsWorkerStep(s)
    ensures IngestFrame(w, Next(w, s))
  {
    hide IngestFrame, BeginIngest, UploadOriginal, EnqueueMessage, CommitIngest, CommitRejection, Drop, RollBack;
    if !Enabled(w, s) {
      SelfFrame(w);
    } else {
      match s
      case Begin(path, filename, data, meta) => BeginFrame(w, path, filename, data, meta);
      case Upload(outcome) => UploadFrame(w, outcome);
      case Enqueue(outcome) => EnqueueFrame(w, outcome);
      case Commit(publishes) =>
        DropFrame(w);
        if w.ingest.Committing? { CommitFrame(w); } else { RejectionFrame(w); }
      case CloseSession => DropFrame(w);
    }
  }

  lemma SelfFrame(w: World)
    ensures IngestFrame(w, w)
  {
    hide CommitIngest;
  }

  // ---- any step ----

  lemma Frames(w: World, s: Step)
    ensures !Enabled(w, s) ==> Next(w, s) == w
    ensures IsWorkerStep(s) && Enabled(w, s) ==> s.message < |w.messages| && WorkerFrame(w, s.message, Next(w, s))
    ensures !IsWorkerStep(s) ==> IngestFrame(w, Next(w, s))
  {
    if !IsWorkerStep(s) {
      IngestFrames(w, s);
    } else if Enabled(w, s) {
      WorkerFrames(w, s);
    }
    hide WorkerFrame, IngestFrame, DeliverMessage, StartJob, RunPipeline, UploadOverlay, PersistResult, FailJob, Put,
      BeginIngest, UploadOriginal, EnqueueMessage, CommitIngest, CommitRejection, Drop, RollBack;
  }

  lemma HashStays(w: World, s: Step)
    ensures Next(w, s).hash == w.hash
  {
    hide Next, Enabled, CommitIngest;
    Frames(w, s);
  }

  lemma EventsGrow(w: World, s: Step)
    ensures w.db.events <= Next(w, s).db.events
  {
    hide Next, Enabled, CommitIngest;
    Frames(w, s);
  }

  /** Messages are only appended, keep what they say, and change only by a step of their own worker. */
  lemma MessagesStep(w: World, s: Step, i: nat)
    requires i < |w.messages|
    ensures i < |Next(w, s).messages|
    ensures Next(w, s).messages[i].documentId == w.messages[i].documentId
    ensures Next(w, s).messages[i].meta == w.messages[i].meta
    ensures Next(w, s).messages[i] == w.messages[i] || (IsWorkerStep(s) && s.message == i && Enabled(w, s))
  {
    hide Next, Enabled, CommitIngest, JobFrame;
    Frames(w, s);
  }

  lemma NewMessageWaits(w: World, s: Step, i: nat)
    requires |w.messages| <= i < |Next(w, s).messages|
    ensures Next(w, s).messages[i].state.Waiting?
  {
    hide Next, Enabled, CommitIngest, JobFrame;
    Frames(w, s);
  }

  /** Only the holder of a job writes its row; a commit of the ingestion worker adds a new one. */
  lemma JobsStep(w: World, s: Step, j: Id)
    requires Below(w.db.jobs.Keys, w.nextId) && j in w.db.jobs
    ensures j in Next(w, s).db.jobs
    ensures Next(w, s).db.jobs[j] == w.db.jobs[j]
            || (IsWorkerStep(s) && s.message < |w.messages| && HoldsJob(w.messages[s.message])
                && w.messages[s.message].state.jobId == j && Enabled(w, s))
    ensures Next(w, s).db.jobs[j].documentId == w.db.jobs[j].documentId
            && Next(w, s).db.jobs[j].rqJobId == w.db.jobs[j].rqJobId
            && Next(w, s).db.jobs[j].attemptCount == w.db.jobs[j].attemptCount
  {
    hide Next, Enabled, CommitIngest;
    Frames(w, s);
  }

  lemma NewJobStep(w: World, s: Step, j: Id)
    requires j in Next(w, s).db.jobs && j !in w.db.jobs
    ensures w.ingest.Committing? && Next(w, s) == CommitIngest(w) && j == w.nextId
    ensures Next(w, s).db.jobs[j] == Job(w.ingest.documentId, w.ingest.rqJobId, JobQueued, 1, None)
  {
    hide Next, Enabled, CommitIngest;
    Frames(w, s);
  }

  lemma WorkersKeepDocuments(w: World, s: Step)
    requires IsWorkerStep(s)
    ensures Next(w, s).db.documents == w.db.documents && Next(w, s).db.batches == w.db.batches
    ensures Next(w, s).pending == w.pending && Next(w, s).ingest == w.ingest && Next(w, s).originals == w.originals
    ensures |Next(w, s).messages| == |w.messages|
  {
    hide Next, Enabled, JobFrame;
    Frames(w, s);
  }
}
