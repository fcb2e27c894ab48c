/**
 Where every row comes from: the file an ingestion read, the result a pipeline run returned, the error that was raised.
 */
module Provenance {
  import opened Common
  import opened Audit
  import opened Store
  import opened Protocol
  import opened ProtocolInvariant
  import opened ProtocolFrames
  import opened ProtocolPreservation
  import opened ProtocolLimits
  import opened Traces

  /** The step is one of the run's, and its process was ready for it when its turn came. */
  ghost predicate Happened(hash: Bytes -> string, steps: seq<Step>, s: Step) {
    exists k :: 0 <= k < |steps| && steps[k] == s && Enabled(Run(Start(hash), steps[..k]), s)
  }

  lemma HappenedSnoc(hash: Bytes -> string, steps: seq<Step>, s: Step)
    ensures forall t :: Happened(hash, steps, t) ==> Happened(hash, steps + [s], t)
    ensures Enabled(Run(Start(hash), steps), s) ==> Happened(hash, steps + [s], s)
  {
    hide Enabled, Run;
    var more := steps + [s];
    forall t | Happened(hash, steps, t) ensures Happened(hash, more, t) {
      var k :| 0 <= k < |steps| && steps[k] == t && Enabled(Run(Start(hash), steps[..k]), t);
      assert more[k] == t && more[..k] == steps[..k];
    }
    assert more[|steps|] == s && more[..|steps|] == steps;
  }

  // ---- documents ----

  /** What was read for document `d`: the bytes, and the model named in its message. */
  ghost predicate Origin(w: World, d: Id, doc: Document, data: Bytes, meta: Id) {
    && IsTiff(data) && doc.sizeBytes == |data| && doc.checksum == w.hash(data)
    && (d in w.originals ==> w.originals[d] == data)
    && (w.ingest.Uploading? && w.ingest.documentId == d ==> w.ingest.data == data && w.ingest.meta == meta)
    && (w.ingest.Enqueueing? && w.ingest.documentId == d ==> w.ingest.meta == meta)
    && (forall i :: 0 <= i < |w.messages| && w.messages[i].documentId == d ==> w.messages[i].meta == meta)
  }

  ghost predicate DocumentFrom(hash: Bytes -> string, steps: seq<Step>, w: World, d: Id)
    requires d in Visible(w)
  {
    var doc := Visible(w)[d];
    exists data, meta :: Happened(hash, steps, Begin(doc.sourcePath, doc.sourceFilename, data, meta))
        && Origin(w, d, doc, data, meta)
  }

  ghost predicate SourcesOk(batches: map<Id, Batch>, documents: map<Id, Document>) {
    forall d :: d in documents && documents[d].batchId in batches ==>
      batches[documents[d].batchId].source == SourceDir(documents[d].sourcePath)
  }

  // ---- results ----

  predicate HoldsResult(m: Message) { m.state.Computed? || m.state.Saved? }

  ghost predicate PredictionFrom(hash: Bytes -> string, steps: seq<Step>, w: World, p: Id)
    requires p in w.db.predictions
  {
    var row := w.db.predictions[p];
    exists i: nat, r: Inference :: Happened(hash, steps, Compute(i, Some(r))) && ResultOf(w, p, row, i, r)
  }

  ghost predicate ResultOf(w: World, p: Id, row: Prediction, i: nat, r: Inference) {
    && i < |w.messages| && w.messages[i].documentId == row.documentId && w.messages[i].meta == row.modelMetadataId
    && row.predictedClass == r.predictedClass && row.confidence == r.confidence && row.scores == r.scores
    && (row.eligible <==> r.confidence < 0.7)
    && row.reviewLabel.None? && row.reviewer.None? && row.reviewedAt.None?
    && DocumentClassified(p, row.documentId, r.predictedClass, r.confidence, row.eligible) in w.db.events
  }

  /**
   A job carries an error exactly when it failed, and the log has both the error and the ingestion of its document.
   */
  ghost predicate JobRecorded(t: Tables, j: Id)
    requires j in t.jobs
  {
    var job := t.jobs[j];
    && (job.status.JobRetryableFailed? <==> job.lastError.Some?)
    && (job.lastError.Some? ==> ClassificationFailed(j, job.lastError.value) in t.events)
    && job.documentId in t.documents
    && DocumentIngested(job.documentId, t.documents[job.documentId].sourcePath, job.rqJobId) in t.events
  }

  ghost predicate Traced(hash: Bytes -> string, steps: seq<Step>, w: World) {
    && w.hash == hash
    && (forall d :: d in Visible(w) ==> DocumentFrom(hash, steps, w, d))
    && SourcesOk(w.db.batches, w.db.documents) && SourcesOk(w.pending.batches, w.pending.documents)
    && (forall i: nat :: i < |w.messages| && HoldsResult(w.messages[i]) ==>
          Happened(hash, steps, Compute(i, Some(w.messages[i].state.result))))
    && (forall p :: p in w.db.predictions ==> PredictionFrom(hash, steps, w, p))
    && (forall j :: j in w.db.jobs ==> JobRecorded(w.db, j))
  }

  // ---- documents after a step ----

  predicate SameReading(a: Document, b: Document) {
    a.sourcePath == b.sourcePath && a.sourceFilename == b.sourceFilename && a.sizeBytes == b.sizeBytes
        && a.checksum == b.checksum
  }

  ghost predicate SameMeta(before: seq<Message>, after: seq<Message>) {
    && |before| <= |after|
    && forall i :: 0 <= i < |before| ==> after[i].documentId == before[i].documentId && after[i].meta == before[i].meta
  }

  /** The step read nothing new: what is known about the visible documents stays true. */
  ghost predicate Faithful(w: World, n: World) {
    && n.hash == w.hash
    && (forall d :: d in Visible(n) ==> d in Visible(w) && SameReading(Visible(n)[d], Visible(w)[d]))
    && (forall d :: d in n.originals ==>
          (d in w.originals && n.originals[d] == w.originals[d])
          || (w.ingest.Uploading? && d == w.ingest.documentId && n.originals[d] == w.ingest.data))
    && (n.ingest == w.ingest || n.ingest.Idle? || n.ingest.Committing?
        || (w.ingest.Uploading? && n.ingest == Enqueueing(w.ingest.documentId, w.ingest.meta)))
    && SameMeta(w.messages, n.messages)
    && (forall i :: |w.messages| <= i < |n.messages| ==>
          w.ingest.Enqueueing? && n.messages[i].documentId == w.ingest.documentId
              && n.messages[i].meta == w.ingest.meta)
  }

  lemma FaithfulOrigin(w: World, n: World, d: Id, data: Bytes, meta: Id)
    requires Faithful(w, n) && d in Visible(n) && Origin(w, d, Visible(w)[d], data, meta)
    ensures Origin(n, d, Visible(n)[d], data, meta)
  {
    hide Visible, IsTiff;
  }

  lemma FaithfulUpload(w: World, outcome: Call)
    requires w.ingest.Uploading?
    ensures Faithful(w, UploadOriginal(w, outcome))
  {}

  lemma FaithfulEnqueue(w: World, outcome: Call)
    requires w.ingest.Enqueueing?
    ensures Faithful(w, EnqueueMessage(w, outcome))
  {
    assert Visible(EnqueueMessage(w, outcome)) == Visible(w);
  }

  lemma FaithfulDrop(w: World)
    requires KeysOk(w)
    ensures Faithful(w, Drop(w)) && Faithful(w, RollBack(w))
  {}

  lemma FaithfulRejection(w: World)
    requires w.ingest.Rejecting?
    ensures Faithful(w, CommitRejection(w))
  {
    assert Visible(CommitRejection(w)) == Visible(w);
  }

  lemma CommittingParts(w: World)
    requires Inv(w) && w.ingest.Committing?
    ensures w.ingest.documentId in w.pending.documents
            && w.pending.documents[w.ingest.documentId].batchId in w.pending.batches
  {
    assert IngestOk(w) && BatchesOk(w.pending.batches, w.pending.documents);
    hide Inv;
  }

  lemma FaithfulCommit(w: World)
    requires w.ingest.Committing? && w.ingest.documentId in w.pending.documents
    requires w.pending.documents[w.ingest.documentId].batchId in w.pending.batches
    ensures Faithful(w, CommitIngest(w))
  {
    var doc := w.pending.documents[w.ingest.documentId];
    var batch := w.pending.batches[doc.batchId];
    CommittedRows(w, w.ingest.documentId, doc.(status := Queued), batch.(documentCount := batch.documentCount + 1));
    CommitFrame(w);
    hide Visible, CommitIngest;
  }

  lemma FaithfulWork(w: World, s: Step)
    requires IsWorkerStep(s)
    ensures Faithful(w, Next(w, s))
  {
    hide Next, Visible, JobFrame, Enabled;
    Frames(w, s);
    SameVisible(w, Next(w, s));
  }

  lemma FaithfulStep(w: World, s: Step)
    requires Inv(w) && !(s.Begin? && Enabled(w, s))
    ensures Faithful(w, Next(w, s))
  {
    assert KeysOk(w);
    hide Faithful, Inv, UploadOriginal, EnqueueMessage, CommitIngest, CommitRejection, Drop;
    if IsWorkerStep(s) {
      FaithfulWork(w, s);
    } else if !Enabled(w, s) {
      assert Faithful(w, w) by { SelfFaithful(w); }
    } else {
      match s
      case Upload(outcome) => FaithfulUpload(w, outcome);
      case Enqueue(outcome) => FaithfulEnqueue(w, outcome);
      case Commit(publishes) =>
        FaithfulDrop(w);
        if w.ingest.Committing? {
          CommittingParts(w);
          FaithfulCommit(w);
        } else { FaithfulRejection(w); }
      case CloseSession => FaithfulDrop(w);
    }
  }

  lemma SelfFaithful(w: World)
    ensures Faithful(w, w)
  {}

  lemma DocumentsStep(hash: Bytes -> string, steps: seq<Step>, w: World, s: Step, d: Id)
    requires w == Run(Start(hash), steps) && Inv(w) && w.hash == hash && d in Visible(Next(w, s))
    requires forall e :: e in Visible(w) ==> DocumentFrom(hash, steps, w, e)
    ensures DocumentFrom(hash, steps + [s], Next(w, s), d)
  {
    HappenedSnoc(hash, steps, s);
    if s.Begin? && Enabled(w, s) {
      assert KeysOk(w) && MessagesOk(w);
      hide Inv, Happened;
      AfterBegin(w, s.path, s.filename, s.data, s.meta);
      if d in Visible(w) {
        var doc := Visible(w)[d];
        var data, meta :| Happened(hash, steps, Begin(doc.sourcePath, doc.sourceFilename, data, meta))
                          && Origin(w, d, Visible(w)[d], data, meta);
        BeginKeepsOrigin(w, s.path, s.filename, s.data, s.meta, d, data, meta);
      } else {
        NewOrigin(w, s.path, s.filename, s.data, s.meta, d);
      }
    } else {
      FaithfulStep(w, s);
      hide Inv, Next;
      var data, meta :| Happened(hash, steps, Begin(Visible(w)[d].sourcePath, Visible(w)[d].sourceFilename, data, meta))
                        && Origin(w, d, Visible(w)[d], data, meta);
      FaithfulOrigin(w, Next(w, s), d, data, meta);
    }
  }

  lemma BeginKeepsOrigin(w: World, path: string, filename: string, read: Bytes, model: Id, d: Id, data: Bytes, meta: Id)
    requires w.ingest.Idle? && KeysOk(w) && d in Visible(w) && Origin(w, d, Visible(w)[d], data, meta)
    ensures var n := BeginIngest(w, path, filename, read, model);
            d in Visible(n) && Visible(n)[d] == Visible(w)[d] && Origin(n, d, Visible(n)[d], data, meta)
  {}

  lemma NewOrigin(w: World, path: string, filename: string, read: Bytes, model: Id, d: Id)
    requires w.ingest.Idle? && KeysOk(w) && MessagesOk(w)
    requires d in Visible(BeginIngest(w, path, filename, read, model)) && d !in Visible(w)
    ensures var n := BeginIngest(w, path, filename, read, model);
            Visible(n)[d].sourcePath == path && Visible(n)[d].sourceFilename == filename
                && Origin(n, d, Visible(n)[d], read, model)
  {
    assert d == w.nextId + 1;
    forall i | 0 <= i < |w.messages| ensures w.messages[i].documentId != d {
      assert MessageOk(w.messages[i], w);
    }
  }

  // ---- batches after a step ----

  lemma SourcesStep(w: World, s: Step)
    requires Inv(w) && SourcesOk(w.db.batches, w.db.documents) && SourcesOk(w.pending.batches, w.pending.documents)
    ensures SourcesOk(Next(w, s).db.batches, Next(w, s).db.documents)
    ensures SourcesOk(Next(w, s).pending.batches, Next(w, s).pending.documents)
  {
    hide Inv, Next, Enabled, SourcesOk, BatchesOk, KeysOk, BeginIngest, UploadOriginal, EnqueueMessage, CommitIngest,
      CommitRejection, Drop, RollBack;
    SourcesParts(w);
    if IsWorkerStep(s) {
      WorkersKeepDocuments(w, s);
    } else {
      if w.ingest.Committing? { CommittingParts(w); }
      SourcesIngested(w, s);
    }
  }

  lemma SourcesParts(w: World)
    requires Inv(w)
    ensures KeysOk(w) && BatchesOk(w.db.batches, w.db.documents) && BatchesOk(w.pending.batches, w.pending.documents)
  {
    hide KeysOk, BatchesOk;
  }

  lemma SourcesIngested(w: World, s: Step)
    requires !IsWorkerStep(s) && AllSourcesOk(w) && KeysOk(w)
    requires BatchesOk(w.db.batches, w.db.documents) && BatchesOk(w.pending.batches, w.pending.documents)
    requires w.ingest.Committing? ==>
      w.ingest.documentId in w.pending.documents
          && w.pending.documents[w.ingest.documentId].batchId in w.pending.batches
    ensures AllSourcesOk(Next(w, s))
  {
    hide AllSourcesOk, BatchesOk, KeysOk, BeginIngest, UploadOriginal, EnqueueMessage, CommitIngest, CommitRejection,
      Drop, RollBack;
    if Enabled(w, s) {
      match s
      case Begin(path, filename, data, meta) => SourcesAfterBegin(w, path, filename, data, meta);
      case Upload(outcome) => SourcesAfterUpload(w, outcome);
      case Enqueue(outcome) => SourcesAfterEnqueue(w, outcome);
      case Commit(publishes) =>
        SourcesAfterDrop(w);
        if w.ingest.Committing? { SourcesAfterCommit(w); } else { SourcesAfterRejection(w); }
      case CloseSession => SourcesAfterDrop(w);
    }
  }

  ghost predicate AllSourcesOk(n: World) {
    SourcesOk(n.db.batches, n.db.documents) && SourcesOk(n.pending.batches, n.pending.documents)
  }

  lemma SourcesAfterBegin(w: World, path: string, filename: string, data: Bytes, meta: Id)
    requires AllSourcesOk(w) && KeysOk(w) && BatchesOk(w.pending.batches, w.pending.documents)
    ensures AllSourcesOk(BeginIngest(w, path, filename, data, meta))
  {
    assert w.nextId !in w.pending.batches;
    hide SourceDir;
  }

  lemma SourcesAfterUpload(w: World, outcome: Call)
    requires AllSourcesOk(w) && w.ingest.Uploading?
    ensures AllSourcesOk(UploadOriginal(w, outcome))
  {}

  lemma SourcesAfterEnqueue(w: World, outcome: Call)
    requires AllSourcesOk(w) && w.ingest.Enqueueing?
    ensures AllSourcesOk(EnqueueMessage(w, outcome))
  {}

  lemma SourcesAfterDrop(w: World)
    requires AllSourcesOk(w)
    ensures AllSourcesOk(Drop(w)) && AllSourcesOk(RollBack(w))
  {}

  lemma SourcesMerge(b1: map<Id, Batch>, d1: map<Id, Document>, b2: map<Id, Batch>, d2: map<Id, Document>)
    requires SourcesOk(b1, d1) && SourcesOk(b2, d2) && BatchesOk(b1, d1) && BatchesOk(b2, d2) && b1.Keys !! b2.Keys
    ensures SourcesOk(b1 + b2, d1 + d2)
  {}

  lemma SourcesAfterRejection(w: World)
    requires AllSourcesOk(w) && KeysOk(w) && w.ingest.Rejecting?
    requires BatchesOk(w.db.batches, w.db.documents) && BatchesOk(w.pending.batches, w.pending.documents)
    ensures AllSourcesOk(CommitRejection(w))
  {
    SourcesMerge(w.db.batches, w.db.documents, w.pending.batches, w.pending.documents);
    hide BatchesOk;
  }

  lemma SourcesAfterCommit(w: World)
    requires AllSourcesOk(w) && KeysOk(w) && w.ingest.Committing?
    requires w.ingest.documentId in w.pending.documents
    requires w.pending.documents[w.ingest.documentId].batchId in w.pending.batches
    requires BatchesOk(w.db.batches, w.db.documents) && BatchesOk(w.pending.batches, w.pending.documents)
    ensures AllSourcesOk(CommitIngest(w))
  {
    hide BatchesOk, SourcesOk, Visible;
    var doc := w.pending.documents[w.ingest.documentId];
    var batch := w.pending.batches[doc.batchId];
    var counted, queued := batch.(documentCount := batch.documentCount + 1), doc.(status := Queued);
    CommittedRows(w, w.ingest.documentId, queued, counted);
    CountedSources(w.db.batches, w.db.documents, w.pending.batches, w.pending.documents, w.ingest.documentId, counted,
        queued);
    hide KeysOk, CommitIngest;
    NoSources();
  }

  lemma NoSources()
    ensures SourcesOk(NOTHING.batches, NOTHING.documents)
  {}

  lemma CountedSources(b1: map<Id, Batch>, d1: map<Id, Document>, b2: map<Id, Batch>, d2: map<Id, Document>,
                       d: Id, counted: Batch, queued: Document)
    requires SourcesOk(b1, d1) && SourcesOk(b2, d2) && BatchesOk(b1, d1) && BatchesOk(b2, d2) && b1.Keys !! b2.Keys
    requires d in d2 && queued == d2[d].(status := Queued) && queued.batchId in b2
    requires counted.source == b2[queued.batchId].source
    ensures SourcesOk(b1 + b2[queued.batchId := counted], d1 + d2[d := queued])
  {
    var b3, d3 := b2[queued.batchId := counted], d2[d := queued];
    assert SourcesOk(b3, d3);
    hide SourcesOk;
    assert b3.Keys == b2.Keys && d3.Keys == d2.Keys;
    CommittedSources(b1, d1, b2, d2, b3, d3);
  }

  lemma CommittedSources(b1: map<Id, Batch>, d1: map<Id, Document>, b2: map<Id, Batch>, d2: map<Id, Document>,
                         b3: map<Id, Batch>, d3: map<Id, Document>)
    requires SourcesOk(b1, d1) && SourcesOk(b3, d3) && BatchesOk(b1, d1) && BatchesOk(b2, d2) && b1.Keys !! b2.Keys
    requires b3.Keys == b2.Keys && d3.Keys == d2.Keys && forall d :: d in d2 ==> d3[d].batchId == d2[d].batchId
    ensures SourcesOk(b1 + b3, d1 + d3)
  {}

  // ---- results and jobs after a step ----

  lemma ComputedStep(w: World, s: Step, i: nat)
    requires i < |Next(w, s).messages| && HoldsResult(Next(w, s).messages[i])
    ensures var r := Next(w, s).messages[i].state.result;
            (i < |w.messages| && HoldsResult(w.messages[i]) && w.messages[i].state.result == r)
            || (s == Compute(i, Some(r)) && Enabled(w, s))
  {
    if i < |w.messages| {
      hide Next;
      MessagesStep(w, s, i);
      if Next(w, s).messages[i] != w.messages[i] { OwnComputedStep(w, s, i); }
    } else {
      NewMessageWaits(w, s, i);
    }
  }

  lemma OwnComputedStep(w: World, s: Step, i: nat)
    requires IsWorkerStep(s) && Enabled(w, s) && s.message == i && HoldsResult(Next(w, s).messages[i])
    ensures s == Compute(i, Some(Next(w, s).messages[i].state.result))
            || (HoldsResult(w.messages[i]) && w.messages[i].state.result == Next(w, s).messages[i].state.result)
  {
    hide RunningRows, ResultRows, FailureRows, ActiveJobs;
  }

  lemma PredictionsStep(w: World, s: Step, p: Id)
    requires p in Next(w, s).db.predictions
    ensures (p in w.db.predictions && Next(w, s).db.predictions[p] == w.db.predictions[p])
            || (s.Persist? && Enabled(w, s) && p == w.nextId && Next(w, s) == PersistResult(w, s.message, true)
                && w.messages[s.message].state.jobId in w.db.jobs)
  {
    if IsWorkerStep(s) {
      hide ActiveJobs, NewPrediction;
    } else {
      hide DeliverMessage, StartJob, RunPipeline, UploadOverlay, PersistResult, FailJob;
    }
  }

  lemma PredictionStep(hash: Bytes -> string, steps: seq<Step>, w: World, s: Step, p: Id)
    requires Traced(hash, steps, w) && w == Run(Start(hash), steps) && p in Next(w, s).db.predictions
    ensures PredictionFrom(hash, steps + [s], Next(w, s), p)
  {
    hide Next, Enabled, Happened, Run, DocumentFrom, PredictionFrom, SourcesOk, JobRecorded;
    HappenedSnoc(hash, steps, s);
    PredictionsStep(w, s, p);
    if p in w.db.predictions && Next(w, s).db.predictions[p] == w.db.predictions[p] {
      KnownPrediction(hash, steps, w, s, p);
    } else {
      SavedNow(w, s);
      FreshPrediction(hash, steps, w, s);
    }
  }

  lemma SavedNow(w: World, s: Step)
    requires s.Persist? && Enabled(w, s)
    ensures s.message < |w.messages| && w.messages[s.message].state.Saved? && HoldsResult(w.messages[s.message])
  {}

  lemma KnownPrediction(hash: Bytes -> string, steps: seq<Step>, w: World, s: Step, p: Id)
    requires p in w.db.predictions && PredictionFrom(hash, steps, w, p)
    requires p in Next(w, s).db.predictions && Next(w, s).db.predictions[p] == w.db.predictions[p]
    requires forall t :: Happened(hash, steps, t) ==> Happened(hash, steps + [s], t)
    ensures PredictionFrom(hash, steps + [s], Next(w, s), p)
  {
    hide Next, Happened;
    var n := Next(w, s);
    var i: nat, r: Inference :| Happened(hash, steps, Compute(i, Some(r))) && ResultOf(w, p, w.db.predictions[p], i, r);
    EventsGrow(w, s);
    MessagesStep(w, s, i);
    assert ResultOf(n, p, n.db.predictions[p], i, r);
  }

  lemma FreshPrediction(hash: Bytes -> string, steps: seq<Step>, w: World, s: Step)
    requires s.Persist? && s.message < |w.messages| && w.messages[s.message].state.Saved?
    requires w.messages[s.message].state.jobId in w.db.jobs && Next(w, s) == PersistResult(w, s.message, true)
    requires Happened(hash, steps + [s], Compute(s.message, Some(w.messages[s.message].state.result)))
    ensures w.nextId in Next(w, s).db.predictions && PredictionFrom(hash, steps + [s], Next(w, s), w.nextId)
  {
    hide Next, Happened;
    NewResult(w, s.message);
    hide PersistResult;
    var n := Next(w, s);
    assert ResultOf(n, w.nextId, n.db.predictions[w.nextId], s.message, w.messages[s.message].state.result);
  }

  lemma NewResult(w: World, i: nat)
    requires i < |w.messages| && w.messages[i].state.Saved? && w.messages[i].state.jobId in w.db.jobs
    ensures var n := PersistResult(w, i, true);
            w.nextId in n.db.predictions
                && ResultOf(n, w.nextId, n.db.predictions[w.nextId], i, w.messages[i].state.result)
  {}

  lemma JobStep(w: World, s: Step, j: Id)
    requires Inv(w) && j in Next(w, s).db.jobs
    requires forall k :: k in w.db.jobs ==> JobRecorded(w.db, k)
    ensures JobRecorded(Next(w, s).db, j)
  {
    assert KeysOk(w) && MessagesOk(w) && JobsOk(w.db.jobs, w.db.documents);
    if j !in w.db.jobs && w.ingest.Committing? { CommittingParts(w); }
    hide Inv, KeysOk, MessagesOk, JobsOk, Next, JobRecorded;
    if j in w.db.jobs {
      KnownJob(w, s, j);
    } else {
      NewJobStep(w, s, j);
      NewJob(w);
    }
  }

  lemma KnownJob(w: World, s: Step, j: Id)
    requires KeysOk(w) && MessagesOk(w) && j in w.db.jobs && JobRecorded(w.db, j)
    ensures j in Next(w, s).db.jobs && JobRecorded(Next(w, s).db, j)
  {
    hide Next;
    JobsStep(w, s, j);
    EventsGrow(w, s);
    var doc := w.db.documents[w.db.jobs[j].documentId];
    CommittedStep(w, s, w.db.jobs[j].documentId, doc.checksum, doc.sourcePath);
    if Next(w, s).db.jobs[j] != w.db.jobs[j] {
      assert MessageOk(w.messages[s.message], w);
      OwnJobStep(w, s, j);
    }
    hide KeysOk, MessagesOk;
  }

  /** A settled job is not held by anyone; the holder of an active one records its error with its failure. */
  lemma OwnJobStep(w: World, s: Step, j: Id)
    requires IsWorkerStep(s) && Enabled(w, s) && HoldsJob(w.messages[s.message])
    requires w.messages[s.message].state.jobId == j
    requires j in w.db.jobs && Active(w.db.jobs[j].status) && w.db.jobs[j].lastError.None?
    ensures var n := Next(w, s);
            && j in n.db.jobs && (n.db.jobs[j].status.JobRetryableFailed? <==> n.db.jobs[j].lastError.Some?)
            && (n.db.jobs[j].lastError.Some? ==> ClassificationFailed(j, n.db.jobs[j].lastError.value) in n.db.events)
  {
    hide DeliverMessage, StartJob, RunPipeline, UploadOverlay, PersistResult, FailJob, Put;
    var i := s.message;
    if s.MarkRunning? {
      StartedJob(w, i);
    } else if s.Persist? {
      PersistedJob(w, i, s.publishes);
    } else if s.RecordFailure? {
      FailingJob(w, i);
    } else {
      OtherJobStep(w, s);
    }
  }

  lemma StartedJob(w: World, i: nat)
    requires i < |w.messages| && w.messages[i].state.Found? && w.messages[i].state.jobId in w.db.jobs
    ensures var j := w.messages[i].state.jobId;
            StartJob(w, i).db.jobs == w.db.jobs[j := w.db.jobs[j].(status := JobRunning)]
  {}

  lemma PersistedJob(w: World, i: nat, publishes: bool)
    requires i < |w.messages| && w.messages[i].state.Saved? && w.messages[i].state.jobId in w.db.jobs
    ensures var j := w.messages[i].state.jobId;
            PersistResult(w, i, publishes).db.jobs
                == if publishes then w.db.jobs[j := w.db.jobs[j].(status := JobSucceeded)] else w.db.jobs
  {}

  lemma FailingJob(w: World, i: nat)
    requires i < |w.messages| && w.messages[i].state.Failing? && w.messages[i].state.jobId in w.db.jobs
    ensures var j, error := w.messages[i].state.jobId, w.messages[i].state.error;
            && FailJob(w, i).db.jobs
                == w.db.jobs[j := w.db.jobs[j].(status := JobRetryableFailed, lastError := Some(error))]
            && ClassificationFailed(j, error) in FailJob(w, i).db.events
  {}

  lemma OtherJobStep(w: World, s: Step)
    requires IsWorkerStep(s) && !s.MarkRunning? && !s.Persist? && !s.RecordFailure?
    ensures Next(w, s).db == w.db
  {
    hide ActiveJobs;
  }

  lemma NewJob(w: World)
    requires w.ingest.Committing? && w.ingest.documentId in w.pending.documents
    requires w.pending.documents[w.ingest.documentId].batchId in w.pending.batches
    ensures w.nextId in CommitIngest(w).db.jobs && JobRecorded(CommitIngest(w).db, w.nextId)
  {}

  // ---- all steps ----

  lemma ResultsStep(hash: Bytes -> string, steps: seq<Step>, w: World, s: Step, i: nat)
    requires Traced(hash, steps, w) && w == Run(Start(hash), steps)
    requires i < |Next(w, s).messages| && HoldsResult(Next(w, s).messages[i])
    ensures Happened(hash, steps + [s], Compute(i, Some(Next(w, s).messages[i].state.result)))
  {
    HappenedSnoc(hash, steps, s);
    hide DocumentFrom, SourcesOk, JobRecorded, Happened, PredictionFrom;
    ComputedStep(w, s, i);
    hide Next, Enabled;
  }

  lemma TracedStep(hash: Bytes -> string, steps: seq<Step>, s: Step)
    requires Inv(Run(Start(hash), steps)) && Traced(hash, steps, Run(Start(hash), steps))
    ensures Traced(hash, steps + [s], Next(Run(Start(hash), steps), s))
  {
    var w := Run(Start(hash), steps);
    var n := Next(w, s);
    hide Next, Enabled, Inv, Run, DocumentFrom, PredictionFrom, SourcesOk, JobRecorded, Happened, Visible;
    HashStays(w, s);
    SourcesStep(w, s);
    forall d | d in Visible(n) ensures DocumentFrom(hash, steps + [s], n, d) {
      DocumentsStep(hash, steps, w, s, d);
    }
    forall i: nat | i < |n.messages| && HoldsResult(n.messages[i])
      ensures Happened(hash, steps + [s], Compute(i, Some(n.messages[i].state.result)))
    {
      ResultsStep(hash, steps, w, s, i);
    }
    forall p | p in n.db.predictions ensures PredictionFrom(hash, steps + [s], n, p) {
      PredictionStep(hash, steps, w, s, p);
    }
    forall j | j in n.db.jobs ensures JobRecorded(n.db, j) {
      JobStep(w, s, j);
    }
  }

  /**
   In every reachable state: a document has the path, name, size and checksum of a TIFF that an ingestion
   read, its batch the directory of that file, and its object those bytes; a prediction has the class,
   confidence and scores that a run of the pipeline returned for a message of its document, and the audit
   log says the same; a job carries an error exactly when it failed.
   */
  lemma {:induction false} EveryRowHasItsSource(hash: Bytes -> string, steps: seq<Step>)
    ensures Traced(hash, steps, Run(Start(hash), steps))
    decreases |steps|
  {
    if steps == [] {
      assert Visible(Start(hash)) == map[];
    } else {
      var front, s := steps[..|steps| - 1], steps[|steps| - 1];
      assert steps == front + [s];
      hide Traced, Inv, Next;
      EveryRowHasItsSource(hash, front);
      Reachable(hash, front);
      TracedStep(hash, front, s);
      RunSnoc(Start(hash), front, s);
    }
  }

  // ---- failures in the log ----

  predicate HasFailed(jobs: map<Id, Job>, j: Id) { j in jobs && jobs[j].status.JobRetryableFailed? }

  ghost predicate FailedOnce(t: Tables) {
    forall j :: Count(t.events, FailedJob(j)) == if HasFailed(t.jobs, j) then 1 else 0
  }

  /** No job fails or stops having failed, and no failure is logged. */
  ghost predicate NoneFails(t: Tables, u: Tables) {
    && (u.events == t.events
        || (exists e: Event :: !e.ClassificationFailed? && u.events == t.events + [e]))
    && forall j :: HasFailed(u.jobs, j) <==> HasFailed(t.jobs, j)
  }

  lemma NoneFailsKeeps(t: Tables, u: Tables)
    requires NoneFails(t, u) && FailedOnce(t)
    ensures FailedOnce(u)
  {
    hide Count, HasFailed;
    if u.events != t.events {
      var e: Event :| !e.ClassificationFailed? && u.events == t.events + [e];
      forall j ensures Count(u.events, FailedJob(j)) == Count(t.events, FailedJob(j)) {
        CountAppend(t.events, e, FailedJob(j));
      }
    }
  }

  lemma FailureLogged(t: Tables, j: Id, error: string)
    requires j in t.jobs && Active(t.jobs[j].status) && FailedOnce(t)
    ensures FailedOnce(FailureRows(t, j, error))
  {
    var u := FailureRows(t, j, error);
    forall k ensures Count(u.events, FailedJob(k)) == if HasFailed(u.jobs, k) then 1 else 0 {
      CountAppend(t.events, ClassificationFailed(j, error), FailedJob(k));
    }
  }

  lemma CommitFailsNone(w: World)
    requires w.ingest.Committing? && Below(w.db.jobs.Keys, w.nextId)
    ensures NoneFails(w.db, CommitIngest(w).db)
  {}

  lemma IngestFailsNone(w: World, s: Step)
    requires !IsWorkerStep(s) && Below(w.db.jobs.Keys, w.nextId)
    ensures NoneFails(w.db, Next(w, s).db)
  {
    hide IsTiff, Duplicates, SourceDir, Visible, CommitIngest;
    if w.ingest.Committing? { CommitFailsNone(w); }
  }

  lemma OwnFailure(w: World, s: Step)
    requires IsWorkerStep(s) && Enabled(w, s) && FailedOnce(w.db)
    requires HoldsJob(w.messages[s.message]) ==> HoldsActiveJob(w.messages[s.message], w.db.jobs)
    ensures FailedOnce(Next(w, s).db)
  {
    hide DeliverMessage, RunPipeline, UploadOverlay, FailedOnce, NoneFails, NewPrediction, Requeue;
    if s.RecordFailure? {
      FailureLogged(w.db, w.messages[s.message].state.jobId, w.messages[s.message].state.error);
    } else {
      OthersFailNone(w, s);
      NoneFailsKeeps(w.db, Next(w, s).db);
    }
  }

  lemma OthersFailNone(w: World, s: Step)
    requires IsWorkerStep(s) && Enabled(w, s) && !s.RecordFailure?
    requires HoldsJob(w.messages[s.message]) ==> HoldsActiveJob(w.messages[s.message], w.db.jobs)
    ensures NoneFails(w.db, Next(w, s).db)
  {
    if s.MarkRunning? || s.Persist? {
      hide NewPrediction, Requeue;
    } else {
      OtherJobStep(w, s);
      hide Next;
    }
  }

  /** In every reachable state the log has exactly one failure for each failed job, and none for any other id. */
  lemma {:induction false} FailuresLoggedOnce(hash: Bytes -> string, steps: seq<Step>)
    ensures FailedOnce(Run(Start(hash), steps).db)
    decreases |steps|
  {
    hide Next, Inv, MessagesOk, Below, FailedOnce, Enabled;
    if steps == [] {
      NoFailureAtStart(hash);
    } else {
      var front, s := steps[..|steps| - 1], steps[|steps| - 1];
      assert steps == front + [s];
      FailuresLoggedOnce(hash, front);
      RunSnoc(Start(hash), front, s);
      Reachable(hash, front);
      var w := Run(Start(hash), front);
      FailureStep(w, s);
    }
  }

  lemma NoFailureAtStart(hash: Bytes -> string)
    ensures FailedOnce(Start(hash).db)
  {}

  lemma FailureStep(w: World, s: Step)
    requires Inv(w) && FailedOnce(w.db)
    ensures FailedOnce(Next(w, s).db)
  {
    assert KeysOk(w) && MessagesOk(w);
    hide Inv, FailedOnce, NoneFails;
    if !IsWorkerStep(s) {
      hide Next;
      IngestFailsNone(w, s);
      NoneFailsKeeps(w.db, Next(w, s).db);
    } else if Enabled(w, s) {
      hide Next;
      assert MessageOk(w.messages[s.message], w);
      OwnFailure(w, s);
    }
  }

  // ---- the directory of a file ----

  /** The source of a batch is the directory of its file; a file without one, or in the root, counts as in the root. */
  lemma DirectoryOfFile(dir: string, name: string)
    requires forall k :: 0 <= k < |name| ==> name[k] != '/'
    ensures dir != "" && dir[|dir| - 1] != '/' ==> SourceDir(dir + ("/" + name)) == dir
    ensures SourceDir("/" + name) == "/" && SourceDir(name) == "/"
  {
    HeadOf(dir + "/", name);
    assert dir + ("/" + name) == dir + "/" + name;
    if dir != "" && dir[|dir| - 1] != '/' {
      assert (dir + "/")[..|dir + "/"| - 1] == dir;
      assert StripSlashes(dir + "/") == StripSlashes(dir) == dir;
    }
    assert StripSlashes("/") == StripSlashes("/"[..0]) == "";
    HeadOf("/", name);
    HeadOf("", name);
    assert "" + name == name;
  }

  lemma {:induction false} HeadOf(head: string, name: string)
    requires head == "" || head[|head| - 1] == '/'
    requires forall k :: 0 <= k < |name| ==> name[k] != '/'
    ensures UpToSlash(head + name) == head
  {
    if name == "" {
      assert head + name == head;
    } else {
      assert (head + name)[..|head + name| - 1] == head + name[..|name| - 1];
      HeadOf(head, name[..|name| - 1]);
    }
  }
}
