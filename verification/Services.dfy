/**
 The services as the program has them: objects whose methods change the session, the committed tables,
 the object store and the queue. Every method is tied to the state machine: a call that nothing else
 interrupts leaves exactly the world that the run of its steps leaves.
 */
module Services {
  import opened Common
  import opened Audit
  import opened Store
  import opened Protocol
  import opened Traces

  /** The committed rows, and the source of fresh keys. */
  class Database {
    var rows: Tables
    var nextId: Id

    constructor ()
      ensures rows == EMPTY_TABLES && nextId == 0
    {
      rows, nextId := EMPTY_TABLES, 0;
    }

    method Draw() returns (id: Id)
      modifies `nextId
      ensures id == old(nextId) && nextId == old(nextId) + 1
    {
      id := nextId;
      nextId := nextId + 1;
    }
  }

  /** A SQLAlchemy session: rows flushed in the open transaction, on top of the committed ones. */
  class Session {
    const db: Database
    var batches: map<Id, Batch>
    var documents: map<Id, Document>
    var jobs: map<Id, Job>
    var events: seq<Event>

    constructor (db: Database)
      ensures this.db == db && batches == map[] && documents == map[] && jobs == map[] && events == []
    {
      this.db := db;
      batches, documents, jobs, events := map[], map[], map[], [];
    }

    method FindActiveDuplicate(checksum: string, path: string) returns (existing: Single<Id>)
      ensures existing == ScalarOneOrNone(Duplicates(db.rows.documents + documents, checksum, path))
    {
      var matches := Duplicates(db.rows.documents + documents, checksum, path);
      if matches == {} {
        existing := NoRow;
      } else {
        var d :| d in matches;
        existing := if matches == {d} then OneRow(d) else ManyRows;
        assert matches != {d} ==> !(matches <= {d});
      }
    }

    method CreateBatch(row: Batch) returns (id: Id)
      modifies `batches, db`nextId
      ensures id == old(db.nextId) && db.nextId == old(db.nextId) + 1 && batches == old(batches)[id := row]
    {
      id := db.Draw();
      batches := batches[id := row];
    }

    method CreateDocument(row: Document) returns (id: Id)
      modifies `documents, db`nextId
      ensures id == old(db.nextId) && db.nextId == old(db.nextId) + 1 && documents == old(documents)[id := row]
    {
      id := db.Draw();
      documents := documents[id := row];
    }

    method CreateJob(row: Job) returns (id: Id)
      modifies `jobs, db`nextId
      ensures id == old(db.nextId) && db.nextId == old(db.nextId) + 1 && jobs == old(jobs)[id := row]
    {
      id := db.Draw();
      jobs := jobs[id := row];
    }

    method Record(event: Event)
      modifies `events
      ensures events == old(events) + [event]
    {
      events := events + [event];
    }

    /** Publishes every flushed row, or loses them all. */
    method Commit(publishes: bool)
      modifies this, db`rows
      ensures batches == map[] && documents == map[] && jobs == map[] && events == []
      ensures db.rows == if !publishes then old(db.rows) else old(db.rows).(
                batches := old(db.rows.batches) + old(batches), documents := old(db.rows.documents) + old(documents),
                jobs := old(db.rows.jobs) + old(jobs), events := old(db.rows.events) + old(events))
    {
      if publishes {
        db.rows := db.rows.(batches := db.rows.batches + batches, documents := db.rows.documents + documents,
                            jobs := db.rows.jobs + jobs, events := db.rows.events + events);
      }
      Close();
    }

    method Close()
      modifies this
      ensures batches == map[] && documents == map[] && jobs == map[] && events == []
    {
      batches, documents, jobs, events := map[], map[], map[], [];
    }
  }

  class ObjectStore {
    var originals: map<Id, Bytes>
    var overlays: set<Id>

    constructor ()
      ensures originals == map[] && overlays == {}
    {
      originals, overlays := map[], {};
    }

    method UploadOriginal(d: Id, data: Bytes, outcome: Call) returns (ok: bool)
      modifies `originals
      ensures ok == outcome.Returns?
      ensures originals == if outcome.Returns? || outcome.tookEffect then old(originals)[d := data] else old(originals)
    {
      if outcome.Returns? || outcome.tookEffect {
        originals := originals[d := data];
      }
      ok := outcome.Returns?;
    }

    method UploadOverlay(d: Id, outcome: Call) returns (ok: bool)
      modifies `overlays
      ensures ok == outcome.Returns?
      ensures overlays == if outcome.Returns? || outcome.tookEffect then old(overlays) + {d} else old(overlays)
    {
      if outcome.Returns? || outcome.tookEffect {
        overlays := overlays + {d};
      }
      ok := outcome.Returns?;
    }
  }

  class RqQueue {
    var messages: seq<Message>

    constructor ()
      ensures messages == []
    {
      messages := [];
    }

    /** `enqueue_classification_job`: the RQ job id, or nothing when the push raised. */
    method Enqueue(d: Id, meta: Id, outcome: Call) returns (rqJobId: Option<nat>)
      modifies this
      ensures rqJobId == if outcome.Returns? then Some(|old(messages)|) else None
      ensures messages == if outcome.Returns? || outcome.tookEffect
                          then old(messages) + [Message(d, meta, MAX_RETRIES, Waiting)] else old(messages)
    {
      rqJobId := if outcome.Returns? then Some(|messages|) else None;
      if outcome.Returns? || outcome.tookEffect {
        messages := messages + [Message(d, meta, MAX_RETRIES, Waiting)];
      }
    }
  }

  datatype IngestOutcome = Ingested(documentId: Id) | Unsupported | Duplicate | StorageFailed | Unexpected

  class IngestionService {
    const db: Database
    const session: Session
    const store: ObjectStore
    const queue: RqQueue
    const hash: Bytes -> string

    /** Between two calls the open transaction holds no job and no event. */
    ghost predicate Valid()
      reads session
    {
      session.db == db && session.jobs == map[] && session.events == []
    }

    ghost function World(): World
      reads db, session, store, queue
    {
      Protocol.World(hash, db.rows, Uncommitted(session.batches, session.documents), store.originals, store.overlays,
                     queue.messages, db.nextId, Idle)
    }

    constructor (db: Database, store: ObjectStore, queue: RqQueue, hash: Bytes -> string)
      ensures Valid() && fresh(session) && this.db == db && this.store == store && this.queue == queue
      ensures this.hash == hash
      ensures World() == Protocol.World(hash, db.rows, NOTHING, store.originals, store.overlays, queue.messages,
                db.nextId, Idle)
    {
      this.db, this.store, this.queue, this.hash := db, store, queue, hash;
      session := new Session(db);
    }

    method IngestFile(path: string, filename: string, data: Bytes, meta: Id, faults: IngestFaults)
      returns (outcome: IngestOutcome)
      requires Valid()
      modifies db, session, store, queue
      ensures Valid()
      ensures !IsTiff(data) ==> World() == old(World())
      ensures IsTiff(data) ==> World() == Run(old(World()), IngestTrace(path, filename, data, meta, faults))
      ensures outcome.Unsupported? <==> !IsTiff(data)
      ensures var dups := Duplicates(Visible(old(World())), hash(data), path);
              && (outcome.Duplicate? <==> IsTiff(data) && ScalarOneOrNone(dups).OneRow?)
              && (outcome.StorageFailed? <==> IsTiff(data) && dups == {} && faults.upload.Raises?)
              && (outcome.Ingested? <==> IsTiff(data) && dups == {} && faults == NO_FAULTS)
      ensures outcome.Duplicate? ==> World() == old(World())
      ensures outcome.Ingested? ==>
                outcome.documentId in db.rows.documents && db.rows.documents[outcome.documentId].status.Queued?
    {
      hide Next, CommitIngest, SourceDir, IsTiff, Run, RollBack;
      ghost var w := World();
      if !IsTiff(data) {
        return Unsupported;
      }
      RunFour(w, Begin(path, filename, data, meta), Upload(faults.upload), Enqueue(faults.enqueue),
          Commit(faults.commits));
      var checksum := hash(data);
      var existing := session.FindActiveDuplicate(checksum, path);
      AfterBegin(w, path, filename, data, meta);
      if !existing.NoRow? {
        IngestStops(w, faults);
        return if existing.OneRow? then Duplicate else Unexpected;
      }
      var batchId := session.CreateBatch(Batch(SourceDir(path), 0));
      var documentId := session.CreateDocument(Document(batchId, path, filename, |data|, checksum, None, Pending));
      assert World().(ingest := Uploading(documentId, data, meta)) == BeginIngest(w, path, filename, data, meta);
      outcome := StoreAndQueue(documentId, data, meta, faults);
    }

    /** The upload, the message and the commit for a document that has been flushed. */
    method StoreAndQueue(documentId: Id, data: Bytes, meta: Id, faults: IngestFaults) returns (outcome: IngestOutcome)
      requires Valid() && documentId in session.documents && session.documents[documentId].batchId in session.batches
      modifies db, session, store, queue
      ensures Valid()
      ensures World() == Next(Next(Next(old(World()).(ingest := Uploading(documentId, data, meta)),
                              Upload(faults.upload)), Enqueue(faults.enqueue)), Commit(faults.commits))
      ensures outcome == if faults.upload.Raises? then StorageFailed
                         else if faults == NO_FAULTS then Ingested(documentId) else Unexpected
      ensures outcome.Ingested? ==> documentId in db.rows.documents && db.rows.documents[documentId].status.Queued?
    {
      hide Next, CommitIngest, RollBack;
      ghost var w1 := World().(ingest := Uploading(documentId, data, meta));
      AfterUpload(w1, faults.upload);
      var stored := store.UploadOriginal(documentId, data, faults.upload);
      if !stored {
        assert World() == UploadOriginal(w1, faults.upload);
        IngestStops(World(), faults);
        return StorageFailed;
      }
      session.documents := session.documents[documentId :=
        session.documents[documentId].(blobKey := Some(documentId), status := Stored)];
      ghost var w2 := World().(ingest := Enqueueing(documentId, meta));
      assert w2 == UploadOriginal(w1, faults.upload);

      AfterEnqueue(w2, faults.enqueue);
      var rqJobId := queue.Enqueue(documentId, meta, faults.enqueue);
      if rqJobId.None? {
        assert World() == EnqueueMessage(w2, faults.enqueue);
        IngestStops(World(), faults);
        return Unexpected;
      }
      assert World().(ingest := Committing(documentId, rqJobId.value)) == EnqueueMessage(w2, faults.enqueue);
      RecordQueued(documentId, rqJobId.value, faults.commits);
      outcome := if faults.commits then Ingested(documentId) else Unexpected;
    }

    /** The job row, the status and count updates, the audit event and the commit of one ingestion. */
    method RecordQueued(documentId: Id, rqJobId: nat, publishes: bool)
      requires Valid() && documentId in session.documents && session.documents[documentId].batchId in session.batches
      modifies db, session
      ensures Valid()
      ensures World() == Next(old(World()).(ingest := Committing(documentId, rqJobId)), Commit(publishes))
      ensures publishes ==> documentId in db.rows.documents && db.rows.documents[documentId].status.Queued?
    {
      hide Next, CommitIngest, RollBack, Publish, Drop;
      ghost var w := World().(ingest := Committing(documentId, rqJobId));
      AfterCommit(w, publishes);
      CommittedWorld(w);
      RolledBackWorld(w);
      var path, batchId := session.documents[documentId].sourcePath, session.documents[documentId].batchId;
      var job := Job(documentId, rqJobId, JobQueued, 1, None);
      var id := session.CreateJob(job);
      session.documents := session.documents[documentId := session.documents[documentId].(status := Queued)];
      var batch := session.batches[batchId];
      session.batches := session.batches[batchId := batch.(documentCount := batch.documentCount + 1)];
      session.Record(DocumentIngested(documentId, path, rqJobId));
      assert session.jobs == map[id := job] && session.events == [DocumentIngested(documentId, path, rqJobId)];
      session.Commit(publishes);
      assert publishes ==> db.rows == Next(w, Commit(true)).db;
    }

    /** One audit event about a rejected file; the commit also publishes whatever was flushed before. */
    method MarkFailed(path: string, filename: string, publishes: bool)
      requires Valid()
      modifies db`rows, session
      ensures Valid()
      ensures World() == if publishes then CommitRejection(old(World()).(ingest := Rejecting(path, filename)))
                else Drop(old(World()))
    {
      session.Record(IngestionFailed(path, filename));
      session.Commit(publishes);
    }
  }

  lemma RolledBackWorld(w: World)
    requires w.ingest.Committing?
    ensures RollBack(w) == w.(pending := NOTHING, nextId := w.nextId + 1, ingest := Idle)
  {}

  /** Everything the commit of one ingestion publishes. */
  lemma CommittedWorld(w: World)
    requires w.ingest.Committing?
    requires w.ingest.documentId in w.pending.documents
    requires w.pending.documents[w.ingest.documentId].batchId in w.pending.batches
    ensures var d := w.ingest.documentId;
            var doc := w.pending.documents[d];
            var batch := w.pending.batches[doc.batchId];
            CommitIngest(w) == w.(
              db := w.db.(
                batches := w.db.batches
                           + w.pending.batches[doc.batchId := batch.(documentCount := batch.documentCount + 1)],
                documents := w.db.documents + w.pending.documents[d := doc.(status := Queued)],
                jobs := w.db.jobs + map[w.nextId := Job(d, w.ingest.rqJobId, JobQueued, 1, None)],
                events := w.db.events + [DocumentIngested(d, doc.sourcePath, w.ingest.rqJobId)]),
              pending := NOTHING, nextId := w.nextId + 1, ingest := Idle)
  {
    var job := Job(w.ingest.documentId, w.ingest.rqJobId, JobQueued, 1, None);
    assert w.db.jobs + map[w.nextId := job] == w.db.jobs[w.nextId := job];
  }

  class ClassificationJobService {
    const db: Database

    constructor (db: Database)
      ensures this.db == db
    {
      this.db := db;
    }

    method MarkRunning(j: Id) returns (found: bool)
      modifies db`rows
      ensures found <==> j in old(db.rows.jobs)
      ensures db.rows == if found then RunningRows(old(db.rows), j) else old(db.rows)
    {
      found := j in db.rows.jobs;
      if found {
        db.rows := db.rows.(jobs := db.rows.jobs[j := db.rows.jobs[j].(status := JobRunning)]);
      }
    }

    /** Prediction, overlay, job and audit event in one transaction; nothing of it when the commit fails. */
    method PersistResult(j: Id, d: Id, meta: Id, r: Inference, publishes: bool) returns (done: bool)
      modifies db
      ensures db.nextId == old(db.nextId) + 2
      ensures done <==> publishes && j in old(db.rows.jobs)
      ensures db.rows == if done then ResultRows(old(db.rows), j, d, meta, r, old(db.nextId), old(db.nextId) + 1)
                         else old(db.rows)
    {
      var work := db.rows;
      var eligible := r.confidence < REVIEW_CONFIDENCE_THRESHOLD;
      var p := db.Draw();
      work := work.(predictions := work.predictions[p :=
        Prediction(d, meta, r.predictedClass, r.confidence, r.scores, eligible, None, None, None)]);
      var o := db.Draw();
      work := work.(overlays := work.overlays[o := Overlay(p, d)]);
      if j !in work.jobs {
        return false;
      }
      work := work.(jobs := work.jobs[j := work.jobs[j].(status := JobSucceeded)],
                    events := work.events + [DocumentClassified(p, d, r.predictedClass, r.confidence, eligible)]);
      done := publishes;
      if publishes {
        db.rows := work;
      }
    }

    method MarkRetryableFailure(j: Id, error: string) returns (found: bool)
      modifies db`rows
      ensures found <==> j in old(db.rows.jobs)
      ensures db.rows == if found then FailureRows(old(db.rows), j, error) else old(db.rows)
    {
      found := j in db.rows.jobs;
      if found {
        db.rows := db.rows.(jobs := db.rows.jobs[j := db.rows.jobs[j].(status := JobRetryableFailed,
            lastError := Some(error))],
                            events := db.rows.events + [ClassificationFailed(j, error)]);
      }
    }
  }

  lemma RequeueForgets(m: Message, state: Delivery)
    ensures Requeue(m.(state := state)) == Requeue(m)
  {}

  class InferenceWorker {
    const db: Database
    const store: ObjectStore
    const queue: RqQueue
    const jobs: ClassificationJobService
    ghost const hash: Bytes -> string

    ghost predicate Valid() { jobs.db == db }

    /** The world of the state machine, with whatever the ingestion session has flushed. */
    ghost function World(pending: Uncommitted, ingest: IngestPoint): World
      reads db, store, queue
    {
      Protocol.World(hash, db.rows, pending, store.originals, store.overlays, queue.messages, db.nextId, ingest)
    }

    constructor (db: Database, store: ObjectStore, queue: RqQueue, ghost hash: Bytes -> string)
      ensures Valid() && this.db == db && this.store == store && this.queue == queue && this.hash == hash
    {
      this.db, this.store, this.queue, this.hash := db, store, queue, hash;
      jobs := new ClassificationJobService(db);
    }

    method GetActiveByDocument(d: Id) returns (job: Single<Id>)
      ensures job == ScalarOneOrNone(ActiveJobs(db.rows, d))
    {
      var matches := ActiveJobs(db.rows, d);
      if matches == {} {
        job := NoRow;
      } else {
        var j :| j in matches;
        job := if matches == {j} then OneRow(j) else ManyRows;
        assert matches != {j} ==> !(matches <= {j});
      }
    }

    /**
     One delivery of message `i`. The ghost arguments only name the message and the ingestion worker's
     private state, for the specification: the run of the delivery's steps, from where this call starts.
     */
    method ClassifyDocument(documentId: Id, meta: Id, faults: DeliveryFaults,
                            ghost i: nat, ghost pending: Uncommitted, ghost ingest: IngestPoint)
      returns (raised: bool)
      requires Valid() && i < |queue.messages|
      requires queue.messages[i] == Message(documentId, meta, queue.messages[i].retriesLeft, Waiting)
      modifies db, store`overlays
      ensures var n := Run(old(World(pending, ingest)), DeliveryTrace(i, faults));
              var m := queue.messages[i];
              n == World(pending, ingest).(messages :=
                     queue.messages[i := if raised then Requeue(m) else m.(state := Finished)])
    {
      hide Next;
      ghost var w := World(pending, ingest);
      ghost var m := queue.messages[i];
      var job := GetActiveByDocument(documentId);
      if !job.OneRow? {
        DeliveryOfNothing(w, i, faults);
        return true;
      }
      var j := job.row;
      assert j in ActiveJobs(w.db, documentId);
      RunDelivery(w, i, faults);
      AfterDeliver(w, i, j);
      ghost var w1 := Next(w, Deliver(i));
      AfterStart(w1, i, j);
      ghost var w2 := Next(w1, MarkRunning(i));
      var _ := jobs.MarkRunning(j);
      var error := ClassifyRunning(j, documentId, meta, faults, i, w2);
      if error.Some? {
        var _ := jobs.MarkRetryableFailure(j, error.value);
      }
      raised := error.Some?;
    }

    /** The body of the `try`: what it raises, if anything, is what `mark_retryable_failure` records. */
    method ClassifyRunning(j: Id, documentId: Id, meta: Id, faults: DeliveryFaults, ghost i: nat, ghost w: World)
      returns (error: Option<string>)
      requires Valid() && At(w, i, Running(j)) && j in w.db.jobs
      requires w.messages[i].documentId == documentId && w.messages[i].meta == meta
      requires w.db == db.rows && w.nextId == db.nextId && w.originals == store.originals
      requires w.overlayObjects == store.overlays
      modifies db, store`overlays
      ensures j in db.rows.jobs
      ensures var n := Next(Next(Next(Next(Next(w, Compute(i, faults.result)), SaveOverlay(i, faults.overlay)),
                                      Persist(i, faults.commits)), RecordFailure(i)), Acknowledge(i));
              n == w.(db := if error.Some? then FailureRows(db.rows, j, error.value) else db.rows,
                      nextId := db.nextId, overlayObjects := store.overlays,
                      messages := w.messages[i := if error.Some? then Requeue(w.messages[i])
                          else w.messages[i].(state := Finished)])
    {
      hide Next, Requeue;
      AfterCompute(w, i, j, faults.result);
      ghost var w3 := Next(w, Compute(i, faults.result));
      if documentId !in db.rows.documents || db.rows.documents[documentId].blobKey.None?
         || db.rows.documents[documentId].blobKey.value !in store.originals || faults.result.None?
      {
        Skips(w3, SaveOverlay(i, faults.overlay));
        Skips(w3, Persist(i, faults.commits));
        EndInFailure(w3, i, j, w3.messages[i].state.error);
        RequeueForgets(w.messages[i], w3.messages[i].state);
        error := Some(if documentId !in db.rows.documents then "document not found"
                      else if db.rows.documents[documentId].blobKey.None? then "no stored blob" else "pipeline failed");
        return;
      }
      RequeueForgets(w.messages[i], w3.messages[i].state);
      assert w3.messages == w.messages[i := w3.messages[i]];
      error := SaveResult(j, documentId, meta, faults.result.value, faults, i, w3);
    }

    /** The overlay upload and the final commit, for a pipeline that has returned. */
    method SaveResult(j: Id, documentId: Id, meta: Id, r: Inference, faults: DeliveryFaults, ghost i: nat,
        ghost w: World)
      returns (error: Option<string>)
      requires Valid() && At(w, i, Computed(j, r)) && j in w.db.jobs
      requires w.messages[i].documentId == documentId && w.messages[i].meta == meta
      requires w.db == db.rows && w.nextId == db.nextId && w.overlayObjects == store.overlays
      modifies db, store`overlays
      ensures j in db.rows.jobs
      ensures var n := Next(Next(Next(Next(w, SaveOverlay(i, faults.overlay)), Persist(i, faults.commits)),
                RecordFailure(i)), Acknowledge(i));
              n == w.(db := if error.Some? then FailureRows(db.rows, j, error.value) else db.rows,
                      nextId := db.nextId, overlayObjects := store.overlays,
                      messages := w.messages[i := if error.Some? then Requeue(w.messages[i])
                          else w.messages[i].(state := Finished)])
    {
      hide Next, Requeue;
      AfterOverlay(w, i, j, r, faults.overlay);
      ghost var w4 := Next(w, SaveOverlay(i, faults.overlay));
      var saved := store.UploadOverlay(documentId, faults.overlay);
      if !saved {
        Skips(w4, Persist(i, faults.commits));
        RequeueForgets(w.messages[i], w4.messages[i].state);
        EndInFailure(w4, i, j, "overlay upload failed");
        return Some("overlay upload failed");
      }
      AfterPersist(w4, i, j, r, faults.commits);
      ghost var w5 := Next(w4, Persist(i, faults.commits));
      var done := jobs.PersistResult(j, documentId, meta, r, faults.commits);
      if !done {
        RequeueForgets(w.messages[i], w5.messages[i].state);
        EndInFailure(w5, i, j, "persist failed");
        return Some("persist failed");
      }
      EndInSuccess(w5, i);
      return None;
    }

    /** RQ around one delivery: an exception sends the message back, or to the failed registry. */
    method Work(i: nat, faults: DeliveryFaults, ghost pending: Uncommitted, ghost ingest: IngestPoint)
      requires Valid() && i < |queue.messages| && queue.messages[i].state.Waiting?
      modifies db, store`overlays, queue
      ensures World(pending, ingest) == Run(old(World(pending, ingest)), DeliveryTrace(i, faults))
    {
      var m := queue.messages[i];
      var raised := ClassifyDocument(m.documentId, m.meta, faults, i, pending, ingest);
      queue.messages := queue.messages[i := if raised then Requeue(m) else m.(state := Finished)];
    }
  }
}
