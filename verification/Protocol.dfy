/**
 The document pipeline as a state machine. One ingestion worker and any number of inference workers
 share the committed tables, the object store and the RQ queue. A step is one action that other
 processes can observe; everything a process does between two steps stays inside its own session.
 A step that its process is not ready for leaves the world unchanged, so every sequence of steps
 is a run and every interleaving is a sequence of steps.
 */
module Protocol {
  import opened Common
  import opened Audit
  import opened Store

  /** A remote call returns, or raises; one that raises may still have taken effect on the server. */
  datatype Call = Returns | Raises(tookEffect: bool)

  /** Rows the ingestion session has flushed and not committed: seen by its own queries only. */
  datatype Uncommitted = Uncommitted(batches: map<Id, Batch>, documents: map<Id, Document>)

  /** Where the ingestion worker is inside `ingest_file`, or inside the handler that calls `mark_failed`. */
  datatype IngestPoint =
    | Idle
    | Rejecting(path: string, filename: string)
    | Uploading(documentId: Id, data: Bytes, meta: Id)
    | Enqueueing(documentId: Id, meta: Id)
    | Committing(documentId: Id, rqJobId: nat)

  /** Where the worker holding a message is inside `classify_document`. */
  datatype Delivery =
    | Waiting
    | Found(jobId: Id)
    | Running(jobId: Id)
    | Computed(jobId: Id, result: Inference)
    | Saved(jobId: Id, result: Inference)
    | Failing(jobId: Id, error: string)
    | Persisted
    | Finished
    | Dead

  /** An RQ message; the RQ job id is its position in the queue's history. */
  datatype Message = Message(documentId: Id, meta: Id, retriesLeft: nat, state: Delivery)

  datatype World = World(
    hash: Bytes -> string,
    db: Tables,
    pending: Uncommitted,
    originals: map<Id, Bytes>,
    overlayObjects: set<Id>,
    messages: seq<Message>,
    nextId: Id,
    ingest: IngestPoint)

  const NOTHING := Uncommitted(map[], map[])

  const MAX_RETRIES: nat := 3

  function Start(hash: Bytes -> string): World {
    World(hash, EMPTY_TABLES, NOTHING, map[], {}, [], 0, Idle)
  }

  datatype Step =
    | Begin(path: string, filename: string, data: Bytes, meta: Id)
    | Upload(outcome: Call)
    | Enqueue(outcome: Call)
    | Commit(publishes: bool)
    | CloseSession
    | Deliver(message: nat)
    | MarkRunning(message: nat)
    | Compute(message: nat, result: Option<Inference>)
    | SaveOverlay(message: nat, outcome: Call)
    | Persist(message: nat, publishes: bool)
    | RecordFailure(message: nat)
    | Acknowledge(message: nat)
    | Crash(message: nat)

  /** A step of an inference worker. */
  predicate IsWorkerStep(s: Step) {
    !s.Begin? && !s.Upload? && !s.Enqueue? && !s.Commit? && !s.CloseSession?
  }

  // ---- the ingestion worker ----

  predicate IsTiff(data: Bytes) {
    |data| >= 4 && (data[..4] == [0x49, 0x49, 0x2A, 0x00] || data[..4] == [0x4D, 0x4D, 0x00, 0x2A])
  }

  /** Two bytes as a number, the lower byte first. */
  function LittleEndian(a: Byte, b: Byte): int { a as int + 256 * b as int }

  /** The head of a file as the TIFF format has it: the mark of a byte order, then 42 in that byte order. */
  predicate HasTiffHead(data: Bytes) {
    |data| >= 4
    && ((data[0] as char == 'I' && data[1] as char == 'I' && LittleEndian(data[2], data[3]) == 42)
        || (data[0] as char == 'M' && data[1] as char == 'M' && LittleEndian(data[3], data[2]) == 42))
  }

  /** The two heads the service compares with are exactly those, in both byte orders. */
  lemma TiffIffHead(data: Bytes)
    ensures IsTiff(data) <==> HasTiffHead(data)
  {
    if |data| >= 4 {
      assert data[..4] == [data[0], data[1], data[2], data[3]];
    }
  }

  /** Everything up to and including the last slash of a path. */
  function UpToSlash(path: string): string {
    if path == "" || path[|path| - 1] == '/' then path else UpToSlash(path[..|path| - 1])
  }

  function StripSlashes(path: string): string {
    if path == "" || path[|path| - 1] != '/' then path else StripSlashes(path[..|path| - 1])
  }

  /** `os.path.dirname(path) or "/"`. */
  function SourceDir(path: string): string {
    var head := UpToSlash(path);
    var stripped := StripSlashes(head);
    if stripped != "" then stripped else if head != "" then head else "/"
  }

  /** The documents a query of the ingestion session sees. */
  function Visible(w: World): map<Id, Document> {
    w.db.documents + w.pending.documents
  }

  /** Validation, the duplicate query, and the flush of one new batch and one new document. */
  function BeginIngest(w: World, path: string, filename: string, data: Bytes, meta: Id): World {
    if !IsTiff(data) then
      w.(ingest := Rejecting(path, filename))
    else if Duplicates(Visible(w), w.hash(data), path) != {} then
      w
    else
      var b := w.nextId;
      var d := w.nextId + 1;
      w.(pending := Uncommitted(
           w.pending.batches[b := Batch(SourceDir(path), 0)],
           w.pending.documents[d := Document(b, path, filename, |data|, w.hash(data), None, Pending)]),
         nextId := w.nextId + 2,
         ingest := Uploading(d, data, meta))
  }

  function UploadOriginal(w: World, outcome: Call): World
    requires w.ingest.Uploading?
  {
    var Uploading(d, data, meta) := w.ingest;
    match outcome
    case Raises(tookEffect) =>
      w.(originals := if tookEffect then w.originals[d := data] else w.originals, ingest := Idle)
    case Returns =>
      if d !in w.pending.documents then w.(ingest := Idle) else
        w.(originals := w.originals[d := data],
           pending := w.pending.(documents := w.pending.documents[d :=
             w.pending.documents[d].(blobKey := Some(d), status := Stored)]),
           ingest := Enqueueing(d, meta))
  }

  function EnqueueMessage(w: World, outcome: Call): World
    requires w.ingest.Enqueueing?
  {
    var Enqueueing(d, meta) := w.ingest;
    var pushed := w.messages + [Message(d, meta, MAX_RETRIES, Waiting)];
    match outcome
    case Raises(tookEffect) => w.(messages := if tookEffect then pushed else w.messages, ingest := Idle)
    case Returns => w.(messages := pushed, ingest := Committing(d, |w.messages|))
  }

  /** All flushed rows become visible to everyone; the session starts a new transaction. */
  function Publish(w: World): World {
    w.(db := w.db.(batches := w.db.batches + w.pending.batches,
                   documents := w.db.documents + w.pending.documents),
       pending := NOTHING)
  }

  /** `session.close()`: the flushed rows are gone. */
  function Drop(w: World): World {
    w.(pending := NOTHING, ingest := Idle)
  }

  /** A commit that the database rolled back; the job row had drawn its key. */
  function RollBack(w: World): World {
    Drop(w).(nextId := if w.ingest.Committing? then w.nextId + 1 else w.nextId)
  }

  /** The job row, status `queued`, the batch count and the audit event, then the commit. */
  function CommitIngest(w: World): World
    requires w.ingest.Committing?
  {
    var Committing(d, rq) := w.ingest;
    if d !in w.pending.documents || w.pending.documents[d].batchId !in w.pending.batches then Drop(w) else
      var doc := w.pending.documents[d];
      var batch := w.pending.batches[doc.batchId];
      var flushed := w.(pending := Uncommitted(
        w.pending.batches[doc.batchId := batch.(documentCount := batch.documentCount + 1)],
        w.pending.documents[d := doc.(status := Queued)]));
      var published := Publish(flushed);
      published.(db := published.db.(
                   jobs := published.db.jobs[w.nextId := Job(d, rq, JobQueued, 1, None)],
                   events := published.db.events + [DocumentIngested(d, doc.sourcePath, rq)]),
                 nextId := w.nextId + 1,
                 ingest := Idle)
  }

  function CommitRejection(w: World): World
    requires w.ingest.Rejecting?
  {
    var published := Publish(w);
    published.(db := published.db.(
                 events := published.db.events + [IngestionFailed(w.ingest.path, w.ingest.filename)]),
               ingest := Idle)
  }

  // ---- the inference workers ----

  /** RQ after a failed or killed delivery: another attempt while retries are left, else the failed registry. */
  function Requeue(m: Message): Message {
    if m.retriesLeft > 0 then m.(retriesLeft := m.retriesLeft - 1, state := Waiting) else m.(state := Dead)
  }

  predicate InFlight(m: Message) {
    !m.state.Waiting? && !m.state.Finished? && !m.state.Dead?
  }

  function Put(w: World, i: nat, m: Message): World
    requires i < |w.messages|
  {
    w.(messages := w.messages[i := m])
  }

  /** `get_active_by_document` on the committed rows; no row, or several, raise before anything is written. */
  ghost function DeliverMessage(w: World, i: nat): World
    requires i < |w.messages|
  {
    var m := w.messages[i];
    match ScalarOneOrNone(ActiveJobs(w.db, m.documentId))
    case OneRow(j) => Put(w, i, m.(state := Found(j)))
    case _ => Put(w, i, Requeue(m))
  }

  function StartJob(w: World, i: nat): World
    requires i < |w.messages| && w.messages[i].state.Found?
  {
    var m := w.messages[i];
    var j := m.state.jobId;
    if j !in w.db.jobs then Put(w, i, Requeue(m)) else
      Put(w, i, m.(state := Running(j))).(db := RunningRows(w.db, j))
  }

  /** The document, its blob key and its original object must exist and the pipeline must return. */
  function RunPipeline(w: World, i: nat, result: Option<Inference>): World
    requires i < |w.messages| && w.messages[i].state.Running?
  {
    var m := w.messages[i];
    var j := m.state.jobId;
    var d := m.documentId;
    if d !in w.db.documents then Put(w, i, m.(state := Failing(j, "document not found")))
    else if w.db.documents[d].blobKey.None? then Put(w, i, m.(state := Failing(j, "no stored blob")))
    else if w.db.documents[d].blobKey.value !in w.originals || result.None? then
      Put(w, i, m.(state := Failing(j, "pipeline failed")))
    else Put(w, i, m.(state := Computed(j, result.value)))
  }

  function UploadOverlay(w: World, i: nat, outcome: Call): World
    requires i < |w.messages| && w.messages[i].state.Computed?
  {
    var m := w.messages[i];
    var j := m.state.jobId;
    match outcome
    case Raises(tookEffect) =>
      Put(w, i, m.(state := Failing(j, "overlay upload failed"))).(
        overlayObjects := if tookEffect then w.overlayObjects + {m.documentId} else w.overlayObjects)
    case Returns =>
      Put(w, i, m.(state := Saved(j, m.state.result))).(overlayObjects := w.overlayObjects + {m.documentId})
  }

  function PersistResult(w: World, i: nat, publishes: bool): World
    requires i < |w.messages| && w.messages[i].state.Saved?
  {
    var m := w.messages[i];
    var Saved(j, r) := m.state;
    if j !in w.db.jobs || !publishes then
      Put(w, i, m.(state := Failing(j, "persist failed"))).(nextId := w.nextId + 2)
    else
      Put(w, i, m.(state := Persisted)).(
        db := ResultRows(w.db, j, m.documentId, m.meta, r, w.nextId, w.nextId + 1),
        nextId := w.nextId + 2)
  }

  /** `mark_retryable_failure` commits, then the exception reaches RQ. */
  function FailJob(w: World, i: nat): World
    requires i < |w.messages| && w.messages[i].state.Failing?
  {
    var m := w.messages[i];
    var Failing(j, error) := m.state;
    if j !in w.db.jobs then Put(w, i, Requeue(m)) else
      Put(w, i, Requeue(m)).(db := FailureRows(w.db, j, error))
  }

  // ---- runs ----

  predicate Enabled(w: World, s: Step) {
    match s
    case Begin(_, _, _, _) => w.ingest.Idle?
    case Upload(_) => w.ingest.Uploading?
    case Enqueue(_) => w.ingest.Enqueueing?
    case Commit(_) => w.ingest.Committing? || w.ingest.Rejecting?
    case CloseSession => true
    case Deliver(i) => i < |w.messages| && w.messages[i].state.Waiting?
    case MarkRunning(i) => i < |w.messages| && w.messages[i].state.Found?
    case Compute(i, _) => i < |w.messages| && w.messages[i].state.Running?
    case SaveOverlay(i, _) => i < |w.messages| && w.messages[i].state.Computed?
    case Persist(i, _) => i < |w.messages| && w.messages[i].state.Saved?
    case RecordFailure(i) => i < |w.messages| && w.messages[i].state.Failing?
    case Acknowledge(i) => i < |w.messages| && w.messages[i].state.Persisted?
    case Crash(i) => i < |w.messages| && InFlight(w.messages[i])
  }

  ghost function Next(w: World, s: Step): World {
    if !Enabled(w, s) then w else
      match s
      case Begin(path, filename, data, meta) => BeginIngest(w, path, filename, data, meta)
      case Upload(outcome) => UploadOriginal(w, outcome)
      case Enqueue(outcome) => EnqueueMessage(w, outcome)
      case Commit(publishes) =>
        if !publishes then RollBack(w) else if w.ingest.Committing? then CommitIngest(w) else CommitRejection(w)
      case CloseSession => Drop(w)
      case Deliver(i) => DeliverMessage(w, i)
      case MarkRunning(i) => StartJob(w, i)
      case Compute(i, result) => RunPipeline(w, i, result)
      case SaveOverlay(i, outcome) => UploadOverlay(w, i, outcome)
      case Persist(i, publishes) => PersistResult(w, i, publishes)
      case RecordFailure(i) => FailJob(w, i)
      case Acknowledge(i) => Put(w, i, w.messages[i].(state := Finished))
      case Crash(i) => Put(w, i, Requeue(w.messages[i]))
  }

  ghost function Run(w: World, steps: seq<Step>): World
    decreases |steps|
  {
    if steps == [] then w else Run(Next(w, steps[0]), steps[1..])
  }

  lemma {:induction false} RunConcat(w: World, a: seq<Step>, b: seq<Step>)
    ensures Run(w, a + b) == Run(Run(w, a), b)
    decreases |a|
  {
    if a == [] {
      assert a + b == b;
    } else {
      assert (a + b)[1..] == a[1..] + b;
      RunConcat(Next(w, a[0]), a[1..], b);
    }
  }

  /** The world after one more step: the form in which runs are extended. */
  lemma RunSnoc(w: World, steps: seq<Step>, s: Step)
    ensures Run(w, steps + [s]) == Next(Run(w, steps), s)
  {
    RunConcat(w, steps, [s]);
    assert Run(Run(w, steps), [s]) == Run(Next(Run(w, steps), s), []);
  }
}
