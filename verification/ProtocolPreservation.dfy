/** Every step keeps the invariant: first the parts a step writes, then one lemma for each step. */
module ProtocolPreservation {
  import opened Common
  import opened Audit
  import opened Store
  import opened Protocol
  import opened ProtocolInvariant

  // ---- documents and batches ----

  lemma AddIdentity(documents: map<Id, Document>, d: Id, doc: Document)
    requires IdentitiesOk(documents) && d !in documents
    requires forall e :: e in documents ==> !documents[e].status.Failed?
    requires Duplicates(documents, doc.checksum, doc.sourcePath) == {}
    ensures IdentitiesOk(documents[d := doc])
  {
    forall e | e in documents ensures !SameIdentity(documents[e], doc) {
      assert e !in Duplicates(documents, doc.checksum, doc.sourcePath);
    }
  }

  lemma UpdateIdentity(documents: map<Id, Document>, d: Id, doc: Document)
    requires IdentitiesOk(documents) && d in documents && SameIdentity(documents[d], doc)
    ensures IdentitiesOk(documents[d := doc])
  {}

  lemma AddBatch(batches: map<Id, Batch>, documents: map<Id, Document>, b: Id, batch: Batch, d: Id, doc: Document)
    requires BatchesOk(batches, documents)
    requires b !in batches && d !in documents && doc.batchId == b && !doc.status.Queued? && batch.documentCount == 0
    ensures BatchesOk(batches[b := batch], documents[d := doc])
  {
    forall x | x in batches ensures HasDocument(documents[d := doc], x) {
      var e :| e in documents && documents[e].batchId == x;
      assert documents[d := doc][e].batchId == x;
    }
    assert documents[d := doc][d].batchId == b;
  }

  lemma UpdateBatch(batches: map<Id, Batch>, documents: map<Id, Document>, d: Id, batch: Batch, doc: Document)
    requires BatchesOk(batches, documents)
    requires d in documents && doc.batchId == documents[d].batchId
    requires batch.documentCount == if doc.status.Queued? then 1 else 0
    ensures BatchesOk(batches[doc.batchId := batch], documents[d := doc])
  {
    forall x | x in batches ensures HasDocument(documents[d := doc], x) {
      var e :| e in documents && documents[e].batchId == x;
      assert documents[d := doc][e].batchId == x;
    }
  }

  lemma MergeBatches(b1: map<Id, Batch>, d1: map<Id, Document>, b2: map<Id, Batch>, d2: map<Id, Document>)
    requires BatchesOk(b1, d1) && BatchesOk(b2, d2) && b1.Keys !! b2.Keys && d1.Keys !! d2.Keys
    ensures BatchesOk(b1 + b2, d1 + d2)
  {
    forall x | x in b1 + b2 ensures HasDocument(d1 + d2, x) {
      if x in b2 {
        var e :| e in d2 && d2[e].batchId == x;
        assert (d1 + d2)[e].batchId == x;
      } else {
        var e :| e in d1 && d1[e].batchId == x;
        assert (d1 + d2)[e].batchId == x;
      }
    }
  }

  lemma AppendOther(events: seq<Event>, e: Event, documents: map<Id, Document>, jobs: map<Id, Job>)
    requires IngestedOnce(events, documents) && ClassifiedOnce(events, jobs)
    requires !e.DocumentIngested? && !e.DocumentClassified?
    ensures IngestedOnce(events + [e], documents) && ClassifiedOnce(events + [e], jobs)
  {
    forall f ensures Count(events + [e], f) == Count(events, f) + (if Matches(e, f) then 1 else 0) {
      CountAppend(events, e, f);
    }
  }

  // ---- jobs ----

  lemma AddJob(jobs: map<Id, Job>, documents: map<Id, Document>, all: map<Id, Document>, j: Id, job: Job)
    requires JobsOk(jobs, documents) && j !in jobs && Active(job.status)
    requires forall d :: d in documents ==> d in all && all[d] == documents[d]
    requires forall d :: d in all && all[d].status.Queued? && d !in documents ==> d == job.documentId
    requires job.documentId in all && job.documentId !in documents && all[job.documentId].status.Queued?
    ensures JobsOk(jobs[j := job], all)
  {
    forall d | d in all && all[d].status.Queued? ensures HasJob(jobs[j := job], d) {
      if d == job.documentId {
        assert jobs[j := job][j].documentId == d;
      } else {
        var k :| k in jobs && jobs[k].documentId == d;
        assert jobs[j := job][k].documentId == d;
      }
    }
  }

  lemma UpdateJob(jobs: map<Id, Job>, documents: map<Id, Document>, j: Id, job: Job)
    requires JobsOk(jobs, documents) && j in jobs && job.documentId == jobs[j].documentId
    requires Active(job.status) || Settled(job.status)
    ensures JobsOk(jobs[j := job], documents)
  {
    forall d | d in documents && documents[d].status.Queued? ensures HasJob(jobs[j := job], d) {
      var k :| k in jobs && jobs[k].documentId == d;
      assert jobs[j := job][k].documentId == d;
    }
  }

  /** Writing a job that neither was nor becomes `succeeded` does not change which documents succeeded. */
  lemma SameSuccesses(jobs: map<Id, Job>, j: Id, job: Job)
    requires j in jobs ==> !jobs[j].status.JobSucceeded?
    requires !job.status.JobSucceeded?
    ensures forall d :: HasSucceeded(jobs[j := job], d) <==> HasSucceeded(jobs, d)
  {
    forall d | HasSucceeded(jobs, d) ensures HasSucceeded(jobs[j := job], d) {
      var k :| k in jobs && jobs[k].documentId == d && jobs[k].status.JobSucceeded?;
      assert jobs[j := job][k] == jobs[k];
    }
  }

  lemma KeepResults(t: Tables, objects: set<Id>, j: Id, job: Job)
    requires PredictionsOk(t.jobs, t.predictions) && ResultsOk(t.jobs, t.predictions, t.overlays)
    requires ClassifiedOnce(t.events, t.jobs)
    requires j in t.jobs ==> !t.jobs[j].status.JobSucceeded?
    requires !job.status.JobSucceeded?
    ensures var jobs := t.jobs[j := job];
            PredictionsOk(jobs, t.predictions) && ResultsOk(jobs, t.predictions, t.overlays)
                && ClassifiedOnce(t.events, jobs)
  {
    SameSuccesses(t.jobs, j, job);
  }

  // ---- messages ----

  lemma PutMessage(w: World, i: nat, m: Message)
    requires MessagesOk(w) && i < |w.messages| && m.documentId == w.messages[i].documentId && MessageOk(m, w)
    ensures MessagesOk(Put(w, i, m))
  {}

  /** Other workers' jobs are not touched when the holder of message `i` writes its own job. */
  lemma OtherJobsUntouched(w: World, i: nat, job: Job)
    requires MessagesOk(w) && i < |w.messages| && HoldsJob(w.messages[i])
    ensures var jobs := w.db.jobs[w.messages[i].state.jobId := job];
            forall k :: 0 <= k < |w.messages| && k != i && HoldsJob(w.messages[k])
                ==> HoldsActiveJob(w.messages[k], jobs)
  {
    forall k | 0 <= k < |w.messages| && k != i && HoldsJob(w.messages[k])
      ensures HoldsActiveJob(w.messages[k], w.db.jobs[w.messages[i].state.jobId := job])
    {
      assert MessageOk(w.messages[k], w) && MessageOk(w.messages[i], w);
      assert w.messages[k].documentId != w.messages[i].documentId;
    }
  }

  // ---- results ----

  /** Job `j` of document `d` succeeds: one prediction, one overlay whose object exists, one event. */
  lemma AddResult(t: Tables, objects: set<Id>, j: Id, d: Id, meta: Id, r: Inference, p: Id, o: Id)
    requires JobsOk(t.jobs, t.documents) && PredictionsOk(t.jobs, t.predictions)
    requires OverlaysOk(t.predictions, t.overlays, objects) && ResultsOk(t.jobs, t.predictions, t.overlays)
    requires ClassifiedOnce(t.events, t.jobs)
    requires j in t.jobs && t.jobs[j].documentId == d && !t.jobs[j].status.JobSucceeded?
    requires p !in t.predictions && o !in t.overlays && d in objects
    ensures var u := ResultRows(t, j, d, meta, r, p, o);
            && PredictionsOk(u.jobs, u.predictions)
            && OverlaysOk(u.predictions, u.overlays, objects)
            && ResultsOk(u.jobs, u.predictions, u.overlays)
            && ClassifiedOnce(u.events, u.jobs)
  {
    hide PredictionsOk, OverlaysOk, ResultsOk, ClassifiedOnce;
    var u := ResultRows(t, j, d, meta, r, p, o);
    assert !HasSucceeded(t.jobs, d);
    forall x ensures HasSucceeded(u.jobs, x) <==> HasSucceeded(t.jobs, x) || x == d {
      SuccessAdded(t.jobs, j, u.jobs[j], x);
    }
    AddPrediction(t, u, d, p);
    AddOverlay(t, u, objects, p, d, o);
    AddClassified(t, u, d);
    forall k | k in u.jobs && u.jobs[k].status.JobSucceeded?
      ensures HasResult(u.predictions, u.overlays, u.jobs[k].documentId)
    {
      ResultKept(t, u, p, o, u.jobs[k].documentId, d, k, j);
    }
    ResultsFromEach(u);
  }

  lemma ResultsFromEach(u: Tables)
    requires forall k :: k in u.jobs && u.jobs[k].status.JobSucceeded?
               ==> HasResult(u.predictions, u.overlays, u.jobs[k].documentId)
    ensures ResultsOk(u.jobs, u.predictions, u.overlays)
  {}

  lemma AddPrediction(t: Tables, u: Tables, d: Id, p: Id)
    requires PredictionsOk(t.jobs, t.predictions) && !HasSucceeded(t.jobs, d)
    requires forall x :: HasSucceeded(u.jobs, x) <==> HasSucceeded(t.jobs, x) || x == d
    requires p in u.predictions && u.predictions[p].documentId == d
    requires u.predictions == t.predictions[p := u.predictions[p]]
    ensures PredictionsOk(u.jobs, u.predictions)
  {}

  lemma AddOverlay(t: Tables, u: Tables, objects: set<Id>, p: Id, d: Id, o: Id)
    requires OverlaysOk(t.predictions, t.overlays, objects) && p !in t.predictions && d in objects
    requires u.predictions.Keys == t.predictions.Keys + {p} && u.overlays == t.overlays[o := Overlay(p, d)]
    ensures OverlaysOk(u.predictions, u.overlays, objects)
  {}

  lemma AddClassified(t: Tables, u: Tables, d: Id)
    requires ClassifiedOnce(t.events, t.jobs) && !HasSucceeded(t.jobs, d)
    requires forall x :: HasSucceeded(u.jobs, x) <==> HasSucceeded(t.jobs, x) || x == d
    requires |u.events| > 0 && u.events[|u.events| - 1].DocumentClassified? && u.events[|u.events| - 1].documentId == d
    requires u.events == t.events + [u.events[|u.events| - 1]]
    ensures ClassifiedOnce(u.events, u.jobs)
  {
    forall x ensures Count(u.events, ClassifiedDocument(x)) == if HasSucceeded(u.jobs, x) then 1 else 0 {
      CountAppend(t.events, u.events[|u.events| - 1], ClassifiedDocument(x));
    }
  }

  lemma SuccessAdded(jobs: map<Id, Job>, j: Id, job: Job, x: Id)
    requires j in jobs && !jobs[j].status.JobSucceeded? && job.documentId == jobs[j].documentId
    requires job.status.JobSucceeded?
    ensures HasSucceeded(jobs[j := job], x) <==> HasSucceeded(jobs, x) || x == job.documentId
  {
    if x == job.documentId {
      assert jobs[j := job][j] == job;
    } else if HasSucceeded(jobs, x) {
      var k :| k in jobs && jobs[k].documentId == x && jobs[k].status.JobSucceeded?;
      assert jobs[j := job][k] == jobs[k];
    }
  }

  lemma ResultKept(t: Tables, u: Tables, p: Id, o: Id, x: Id, d: Id, k: Id, j: Id)
    requires p !in t.predictions && o !in t.overlays && ResultsOk(t.jobs, t.predictions, t.overlays)
    requires p in u.predictions && u.predictions[p].documentId == d
    requires u.predictions == t.predictions[p := u.predictions[p]]
    requires u.overlays == t.overlays[o := Overlay(p, d)]
    requires if k == j then x == d else k in t.jobs && t.jobs[k].status.JobSucceeded? && t.jobs[k].documentId == x
    ensures HasResult(u.predictions, u.overlays, x)
  {
    if k == j {
      assert u.overlays[o] == Overlay(p, d);
    } else {
      var q, y :| q in t.predictions && y in t.overlays && t.predictions[q].documentId == x
          && t.overlays[y] == Overlay(q, x);
      assert u.predictions[q] == t.predictions[q] && u.overlays[y] == t.overlays[y];
    }
  }

  // ---- the ingestion worker's steps ----

  lemma BeginKeeps(w: World, path: string, filename: string, data: Bytes, meta: Id)
    requires Inv(w) && w.ingest.Idle?
    ensures Inv(BeginIngest(w, path, filename, data, meta))
  {
    hide IdentitiesOk, BatchesOk, IngestedOnce, JobsOk, PredictionsOk, OverlaysOk, ResultsOk, ClassifiedOnce,
      MessagesOk, KeysOk, FormsOk, NoneQueued, Visible, IsTiff, SourceDir;
    if IsTiff(data) && Duplicates(Visible(w), w.hash(data), path) == {} {
      var d, doc := w.nextId + 1, Document(w.nextId, path, filename, |data|, w.hash(data), None, Pending);
      BeginForms(w, path, filename, data, meta);
      BeginDocument(w, d, doc);
      var n := BeginIngest(w, path, filename, data, meta);
      NewVisible(w, n, d, doc);
      AddBatch(w.pending.batches, w.pending.documents, w.nextId, Batch(SourceDir(path), 0), d, doc);
      MessagesAfterBegin(w, n, d);
    } else {
      OnlyIngest(w, BeginIngest(w, path, filename, data, meta));
    }
  }

  lemma OnlyIngest(w: World, n: World)
    requires KeysOk(w) && MessagesOk(w) && n == w.(ingest := n.ingest)
    ensures KeysOk(n) && MessagesOk(n) && Visible(n) == Visible(w)
  {
    MessagesFramed(w, n);
    hide MessagesOk;
  }

  lemma BeginForms(w: World, path: string, filename: string, data: Bytes, meta: Id)
    requires KeysOk(w) && FormsOk(w.pending.documents, w.hash, w.originals) && NoneQueued(w.pending.documents)
    requires w.ingest.Idle? && IsTiff(data) && Duplicates(Visible(w), w.hash(data), path) == {}
    ensures var n := BeginIngest(w, path, filename, data, meta);
            && KeysOk(n) && FormsOk(n.pending.documents, n.hash, n.originals) && NoneQueued(n.pending.documents)
            && w.nextId !in w.pending.batches && w.nextId + 1 !in w.pending.documents && w.nextId + 1 !in w.originals
            && w.nextId + 1 !in Visible(w)
  {
    hide IsTiff, Duplicates, SourceDir;
  }

  lemma BeginDocument(w: World, d: Id, doc: Document)
    requires FormsOk(w.db.documents, w.hash, w.originals) && FormsOk(w.pending.documents, w.hash, w.originals)
    requires IdentitiesOk(Visible(w)) && d !in Visible(w) && Duplicates(Visible(w), doc.checksum, doc.sourcePath) == {}
    ensures IdentitiesOk(Visible(w)[d := doc])
  {
    hide IdentitiesOk, Duplicates;
    forall e | e in Visible(w) ensures !Visible(w)[e].status.Failed? {
      assert FormOk(e, Visible(w)[e], w.hash, w.originals);
    }
    AddIdentity(Visible(w), d, doc);
  }

  lemma NewVisible(w: World, n: World, d: Id, doc: Document)
    requires n.pending.documents == w.pending.documents[d := doc] && n.db == w.db
    ensures Visible(n) == Visible(w)[d := doc]
  {}

  lemma MessagesAfterBegin(w: World, n: World, d: Id)
    requires MessagesOk(w) && d !in w.originals
    requires n.messages == w.messages && n.originals == w.originals && n.overlayObjects == w.overlayObjects
    requires n.db.documents == w.db.documents && n.db.jobs == w.db.jobs
    requires forall e :: e in n.pending.documents && e != d
               ==> e in w.pending.documents && n.pending.documents[e] == w.pending.documents[e]
    ensures MessagesOk(n)
  {
    forall i | 0 <= i < |n.messages| ensures MessageOk(n.messages[i], n) {
      assert MessageOk(w.messages[i], w);
    }
  }

  lemma MessagesFramed(w: World, n: World)
    requires MessagesOk(w) && n.pending.documents == w.pending.documents
    requires n.messages == w.messages && n.originals == w.originals && n.overlayObjects == w.overlayObjects
    requires n.db.documents == w.db.documents && n.db.jobs == w.db.jobs
    ensures MessagesOk(n)
  {
    forall i | 0 <= i < |n.messages| ensures MessageOk(n.messages[i], n) {
      assert MessageOk(w.messages[i], w);
    }
  }

  lemma UploadKeeps(w: World, outcome: Call)
    requires Inv(w) && w.ingest.Uploading?
    ensures Inv(UploadOriginal(w, outcome))
  {
    hide IdentitiesOk, BatchesOk, IngestedOnce, JobsOk, PredictionsOk, OverlaysOk, ResultsOk, ClassifiedOnce,
      MessagesOk, KeysOk, FormsOk, NoneQueued, Visible, NotEnqueued;
    var Uploading(d, data, meta) := w.ingest;
    var n := UploadOriginal(w, outcome);
    UploadForms(w, outcome);
    if outcome.Returns? {
      UploadedDocument(w, d, n.pending.documents[d]);
      NewVisible(w, n, d, n.pending.documents[d]);
      UpdateBatchOnly(w.pending.batches, w.pending.documents, d, n.pending.documents[d]);
    } else {
      SameVisible(w, n);
    }
    MessagesAfterUpload(w, n, d);
  }

  lemma UploadForms(w: World, outcome: Call)
    requires KeysOk(w) && w.ingest.Uploading? && IngestOk(w)
    requires FormsOk(w.db.documents, w.hash, w.originals)
    requires FormsOk(w.pending.documents, w.hash, w.originals) && NoneQueued(w.pending.documents)
    ensures var n := UploadOriginal(w, outcome);
            && KeysOk(n) && FormsOk(n.db.documents, n.hash, n.originals)
            && FormsOk(n.pending.documents, n.hash, n.originals) && NoneQueued(n.pending.documents)
  {
    var Uploading(d, data, meta) := w.ingest;
    FormsAfterUpload(w.db.documents, w.hash, w.originals, d, data);
    FormsAfterUpload(w.pending.documents, w.hash, w.originals, d, data);
  }

  lemma UploadedDocument(w: World, d: Id, doc: Document)
    requires IdentitiesOk(Visible(w)) && d in w.pending.documents && SameIdentity(w.pending.documents[d], doc)
    ensures IdentitiesOk(Visible(w)[d := doc])
  {
    hide IdentitiesOk;
    UpdateIdentity(Visible(w), d, doc);
  }

  lemma SameVisible(w: World, n: World)
    requires n.pending.documents == w.pending.documents && n.db.documents == w.db.documents
    ensures Visible(n) == Visible(w)
  {}

  lemma UpdateBatchOnly(batches: map<Id, Batch>, documents: map<Id, Document>, d: Id, doc: Document)
    requires BatchesOk(batches, documents) && d in documents
    requires doc.batchId == documents[d].batchId && (doc.status.Queued? <==> documents[d].status.Queued?)
    ensures BatchesOk(batches, documents[d := doc])
  {
    UpdateBatch(batches, documents, d, batches[doc.batchId], doc);
    assert batches[doc.batchId := batches[doc.batchId]] == batches;
  }

  lemma FormsAfterUpload(documents: map<Id, Document>, hash: Bytes -> string, originals: map<Id, Bytes>, d: Id,
      data: Bytes)
    requires FormsOk(documents, hash, originals) && d !in originals
    ensures FormsOk(documents, hash, originals[d := data])
  {}

  lemma MessagesAfterUpload(w: World, n: World, d: Id)
    requires MessagesOk(w) && d !in w.originals && w.originals.Keys <= n.originals.Keys
    requires n.messages == w.messages && n.db == w.db && n.overlayObjects == w.overlayObjects
    requires forall e :: e in n.pending.documents && e != d
               ==> e in w.pending.documents && n.pending.documents[e] == w.pending.documents[e]
    ensures MessagesOk(n) && NotEnqueued(n.messages, d)
  {
    forall i | 0 <= i < |n.messages| ensures MessageOk(n.messages[i], n) && n.messages[i].documentId != d {
      assert MessageOk(w.messages[i], w);
    }
  }

  lemma EnqueueKeeps(w: World, outcome: Call)
    requires Inv(w) && w.ingest.Enqueueing?
    ensures Inv(EnqueueMessage(w, outcome))
  {
    MessagesAfterEnqueue(w, EnqueueMessage(w, outcome));
  }

  lemma MessagesAfterEnqueue(w: World, n: World)
    requires MessagesOk(w) && w.ingest.Enqueueing? && IngestOk(w) && KeysOk(w)
    requires FormsOk(w.pending.documents, w.hash, w.originals)
    requires n.messages == w.messages
               || n.messages == w.messages + [Message(w.ingest.documentId, w.ingest.meta, MAX_RETRIES, Waiting)]
    requires n == w.(messages := n.messages, ingest := n.ingest)
    ensures MessagesOk(n)
  {
    forall i | 0 <= i < |n.messages| ensures MessageOk(n.messages[i], n) {
      if i < |w.messages| { assert MessageOk(w.messages[i], w); }
    }
  }

  lemma NothingOk()
    ensures BatchesOk(NOTHING.batches, NOTHING.documents)
  {}

  lemma FewerIdentities(documents: map<Id, Document>, more: map<Id, Document>)
    requires IdentitiesOk(documents + more) && documents.Keys !! more.Keys
    ensures IdentitiesOk(documents)
  {
    forall d, e | d in documents && e in documents && SameIdentity(documents[d], documents[e]) ensures d == e {
      assert (documents + more)[d] == documents[d] && (documents + more)[e] == documents[e];
    }
  }

  lemma DropKeeps(w: World)
    requires Inv(w)
    ensures Inv(Drop(w))
  {
    hide IdentitiesOk, BatchesOk, IngestedOnce, JobsOk, PredictionsOk, OverlaysOk, ResultsOk, ClassifiedOnce;
    NothingOk();
    FewerIdentities(w.db.documents, w.pending.documents);
    assert Visible(Drop(w)) == w.db.documents;
    MessagesAfterDrop(w);
  }

  lemma MessagesAfterDrop(w: World)
    requires MessagesOk(w)
    ensures MessagesOk(Drop(w))
  {
    forall i | 0 <= i < |w.messages| ensures MessageOk(w.messages[i], Drop(w)) {
      assert MessageOk(w.messages[i], w);
    }
  }

  /** A commit moves the flushed rows, whatever their status, into the committed tables. */
  lemma PublishKeeps(w: World)
    requires Inv(w)
    ensures Inv(Publish(w).(ingest := Idle))
  {
    hide IdentitiesOk, BatchesOk, IngestedOnce, JobsOk, PredictionsOk, OverlaysOk, ResultsOk, ClassifiedOnce,
      MessagesOk, KeysOk, FormsOk, NoneQueued, Visible;
    NothingOk();
    PublishForms(w);
    MergeBatches(w.db.batches, w.db.documents, w.pending.batches, w.pending.documents);
    MergeIngested(w.db.events, w.db.documents, w.pending.documents);
    MergeJobs(w.db.jobs, w.db.documents, w.pending.documents);
    MessagesAfterPublish(w);
  }

  lemma PublishForms(w: World)
    requires KeysOk(w) && FormsOk(w.db.documents, w.hash, w.originals)
    requires FormsOk(w.pending.documents, w.hash, w.originals)
    ensures var n := Publish(w).(ingest := Idle);
            && KeysOk(n) && FormsOk(n.db.documents, n.hash, n.originals) && Visible(n) == Visible(w)
            && FormsOk(n.pending.documents, n.hash, n.originals) && NoneQueued(n.pending.documents)
    ensures w.db.documents.Keys !! w.pending.documents.Keys && w.db.batches.Keys !! w.pending.batches.Keys
  {}

  lemma MergeIngested(events: seq<Event>, documents: map<Id, Document>, more: map<Id, Document>)
    requires IngestedOnce(events, documents) && NoneQueued(more) && documents.Keys !! more.Keys
    ensures IngestedOnce(events, documents + more)
  {}

  lemma MergeJobs(jobs: map<Id, Job>, documents: map<Id, Document>, more: map<Id, Document>)
    requires JobsOk(jobs, documents) && NoneQueued(more) && documents.Keys !! more.Keys
    ensures JobsOk(jobs, documents + more)
  {}

  lemma MessagesAfterPublish(w: World)
    requires MessagesOk(w)
    ensures MessagesOk(Publish(w).(ingest := Idle))
  {
    forall i | 0 <= i < |w.messages| ensures MessageOk(w.messages[i], Publish(w).(ingest := Idle)) {
      assert MessageOk(w.messages[i], w);
    }
  }

  /** The document becomes `queued`, its batch counts it, and one job and one event are written with it. */
  lemma CommitIngestKeeps(w: World)
    requires Inv(w) && w.ingest.Committing?
    ensures Inv(CommitIngest(w))
  {
    hide IdentitiesOk, BatchesOk, IngestedOnce, JobsOk, PredictionsOk, OverlaysOk, ResultsOk, ClassifiedOnce,
      MessagesOk, FormsOk, NoneQueued;
    var Committing(d, rq) := w.ingest;
    BatchOf(w.pending.batches, w.pending.documents, d);
    var queued := w.pending.documents[d].(status := Queued);
    CommitRows(w, d, queued);
    QueueForms(w, d, queued);
    AddIngested(w.db.events, w.db.documents, w.pending.documents, d, queued,
        DocumentIngested(d, queued.sourcePath, rq));
    AddQueuedJob(w, d, rq, queued);
    KeepResults(w.db, w.overlayObjects, w.nextId, Job(d, rq, JobQueued, 1, None));
    AppendIngested(w.db.events, DocumentIngested(d, queued.sourcePath, rq),
        w.db.jobs[w.nextId := Job(d, rq, JobQueued, 1, None)]);
    MessagesAfterCommit(w, CommitIngest(w), d);
  }

  lemma CommitRows(w: World, d: Id, queued: Document)
    requires KeysOk(w) && IdentitiesOk(Visible(w)) && w.ingest.Committing? && w.ingest.documentId == d
    requires BatchesOk(w.db.batches, w.db.documents) && BatchesOk(w.pending.batches, w.pending.documents)
    requires d in w.pending.documents && w.pending.documents[d].status.Stored?
    requires queued == w.pending.documents[d].(status := Queued)
    ensures var n := CommitIngest(w);
            && KeysOk(n) && IdentitiesOk(Visible(n))
            && BatchesOk(n.db.batches, n.db.documents) && BatchesOk(n.pending.batches, n.pending.documents)
            && n.db.documents == w.db.documents + w.pending.documents[d := queued]
  {
    hide IdentitiesOk, BatchesOk, Visible;
    BatchOf(w.pending.batches, w.pending.documents, d);
    CommitKeys(w, d);
    assert w.db.batches.Keys !! w.pending.batches.Keys && w.db.documents.Keys !! w.pending.documents.Keys;
    hide KeysOk;
    var counted := w.pending.batches[queued.batchId].(documentCount := 1);
    CommittedRows(w, d, queued, counted);
    hide CommitIngest;
    UpdateIdentity(Visible(w), d, queued);
    UpdateBatch(w.pending.batches, w.pending.documents, d, counted, queued);
    MergeBatches(w.db.batches, w.db.documents, w.pending.batches[queued.batchId := counted],
        w.pending.documents[d := queued]);
    NothingOk();
  }

  lemma CommittedRows(w: World, d: Id, queued: Document, counted: Batch)
    requires w.ingest.Committing? && w.ingest.documentId == d && d in w.pending.documents
    requires queued == w.pending.documents[d].(status := Queued) && queued.batchId in w.pending.batches
    requires var batch := w.pending.batches[queued.batchId]; counted == batch.(documentCount := batch.documentCount + 1)
    ensures var n := CommitIngest(w);
            && n.db.documents == w.db.documents + w.pending.documents[d := queued]
            && n.db.batches == w.db.batches + w.pending.batches[queued.batchId := counted]
            && n.pending == NOTHING && n.ingest.Idle? && Visible(n) == Visible(w)[d := queued] && d in Visible(w)
                && Visible(w)[d] == w.pending.documents[d]
  {
    CommittedTables(w, d, queued, counted);
    hide CommitIngest;
    MergedVisible(w, CommitIngest(w), d, queued);
  }

  lemma CommittedTables(w: World, d: Id, queued: Document, counted: Batch)
    requires w.ingest.Committing? && w.ingest.documentId == d && d in w.pending.documents
    requires queued == w.pending.documents[d].(status := Queued) && queued.batchId in w.pending.batches
    requires var batch := w.pending.batches[queued.batchId]; counted == batch.(documentCount := batch.documentCount + 1)
    ensures var n := CommitIngest(w);
            && n.db.documents == w.db.documents + w.pending.documents[d := queued]
            && n.db.batches == w.db.batches + w.pending.batches[queued.batchId := counted]
            && n.pending == NOTHING && n.ingest.Idle?
  {}

  lemma MergedVisible(w: World, n: World, d: Id, doc: Document)
    requires d in w.pending.documents && n.pending == NOTHING
    requires n.db.documents == w.db.documents + w.pending.documents[d := doc]
    ensures Visible(n) == Visible(w)[d := doc] && d in Visible(w) && Visible(w)[d] == w.pending.documents[d]
  {}

  lemma CommitKeys(w: World, d: Id)
    requires KeysOk(w) && w.ingest.Committing? && w.ingest.documentId == d
    requires d in w.pending.documents && w.pending.documents[d].batchId in w.pending.batches
    ensures KeysOk(CommitIngest(w))
  {
    var n := CommitIngest(w);
    assert n.db.documents.Keys == w.db.documents.Keys + w.pending.documents.Keys;
    assert n.db.batches.Keys == w.db.batches.Keys + w.pending.batches.Keys;
  }

  lemma BatchOf(batches: map<Id, Batch>, documents: map<Id, Document>, d: Id)
    requires BatchesOk(batches, documents) && d in documents
    ensures documents[d].batchId in batches
    ensures batches[documents[d].batchId].documentCount == if documents[d].status.Queued? then 1 else 0
  {}

  lemma AddIngested(events: seq<Event>, documents: map<Id, Document>, more: map<Id, Document>, d: Id, doc: Document,
      e: Event)
    requires IngestedOnce(events, documents) && documents.Keys !! more.Keys && NoneQueued(more)
    requires d in more && doc.status.Queued? && e.DocumentIngested? && e.documentId == d
    ensures IngestedOnce(events + [e], documents + more[d := doc])
  {
    var all := documents + more[d := doc];
    forall x ensures Count(events + [e], IngestedDocument(x)) == if x in all && all[x].status.Queued? then 1 else 0 {
      CountAppend(events, e, IngestedDocument(x));
    }
  }

  lemma QueueForms(w: World, d: Id, doc: Document)
    requires FormsOk(w.db.documents, w.hash, w.originals) && FormsOk(w.pending.documents, w.hash, w.originals)
    requires d in w.pending.documents && w.pending.documents[d].status.Stored?
    requires doc == w.pending.documents[d].(status := Queued)
    ensures FormsOk(w.db.documents + w.pending.documents[d := doc], w.hash, w.originals)
    ensures FormsOk(NOTHING.documents, w.hash, w.originals) && NoneQueued(NOTHING.documents)
  {
    assert FormOk(d, w.pending.documents[d], w.hash, w.originals);
  }

  lemma AddQueuedJob(w: World, d: Id, rq: nat, doc: Document)
    requires JobsOk(w.db.jobs, w.db.documents) && NoneQueued(w.pending.documents)
    requires w.db.documents.Keys !! w.pending.documents.Keys && Below(w.db.jobs.Keys, w.nextId)
    requires d in w.pending.documents && doc.status.Queued?
    ensures JobsOk(w.db.jobs[w.nextId := Job(d, rq, JobQueued, 1, None)],
              w.db.documents + w.pending.documents[d := doc])
  {
    AddJob(w.db.jobs, w.db.documents, w.db.documents + w.pending.documents[d := doc], w.nextId,
        Job(d, rq, JobQueued, 1, None));
  }

  lemma AppendIngested(events: seq<Event>, e: Event, jobs: map<Id, Job>)
    requires ClassifiedOnce(events, jobs) && e.DocumentIngested?
    ensures ClassifiedOnce(events + [e], jobs)
  {
    forall d ensures Count(events + [e], ClassifiedDocument(d)) == Count(events, ClassifiedDocument(d)) {
      CountAppend(events, e, ClassifiedDocument(d));
    }
  }

  lemma MessagesAfterCommit(w: World, n: World, d: Id)
    requires MessagesOk(w) && Below(w.db.jobs.Keys, w.nextId)
    requires n.messages == w.messages && n.originals == w.originals && n.overlayObjects == w.overlayObjects
    requires n.pending == NOTHING && w.nextId in n.db.jobs && n.db.jobs == w.db.jobs[w.nextId := n.db.jobs[w.nextId]]
    requires d in w.pending.documents && d in n.db.documents && n.db.documents[d].status.Queued?
    requires n.db.documents == w.db.documents + w.pending.documents[d := n.db.documents[d]]
    ensures MessagesOk(n)
  {
    forall i | 0 <= i < |n.messages| ensures MessageOk(n.messages[i], n) {
      assert MessageOk(w.messages[i], w);
    }
  }

  lemma CommitRejectionKeeps(w: World)
    requires Inv(w) && w.ingest.Rejecting?
    ensures Inv(CommitRejection(w))
  {
    hide FormsOk, NoneQueued, IdentitiesOk, BatchesOk, IngestedOnce, JobsOk, PredictionsOk, OverlaysOk, ResultsOk,
      ClassifiedOnce;
    PublishKeeps(w);
    var p := Publish(w).(ingest := Idle);
    AppendOther(p.db.events, IngestionFailed(w.ingest.path, w.ingest.filename), p.db.documents, p.db.jobs);
    MessagesFramed(p, CommitRejection(w));
  }

  // ---- the inference workers' steps ----

  /** Moving one message on, within what its worker may hold. */
  lemma PutKeeps(w: World, i: nat, m: Message)
    requires Inv(w) && i < |w.messages| && m.documentId == w.messages[i].documentId && MessageOk(m, w)
    ensures Inv(Put(w, i, m))
  {
    hide FormsOk, NoneQueued, IdentitiesOk, BatchesOk, IngestedOnce, JobsOk, PredictionsOk, OverlaysOk, ResultsOk,
      ClassifiedOnce;
    PutMessage(w, i, m);
  }

  lemma RequeueKeeps(w: World, i: nat)
    requires Inv(w) && i < |w.messages|
    ensures Inv(Put(w, i, Requeue(w.messages[i])))
  {
    hide FormsOk, NoneQueued, IdentitiesOk, BatchesOk, IngestedOnce, JobsOk, PredictionsOk, OverlaysOk, ResultsOk,
      ClassifiedOnce, KeysOk, IngestOk;
    PutKeeps(w, i, Requeue(w.messages[i]));
  }

  lemma DeliverKeeps(w: World, i: nat)
    requires Inv(w) && i < |w.messages|
    ensures Inv(DeliverMessage(w, i))
  {
    hide FormsOk, NoneQueued, IdentitiesOk, BatchesOk, IngestedOnce, JobsOk, PredictionsOk, OverlaysOk, ResultsOk,
      ClassifiedOnce, KeysOk, IngestOk;
    var m := w.messages[i];
    match ScalarOneOrNone(ActiveJobs(w.db, m.documentId)) {
      case OneRow(j) =>
        assert j in ActiveJobs(w.db, m.documentId);
        PutKeeps(w, i, m.(state := Found(j)));
      case _ => RequeueKeeps(w, i);
    }
  }

  /** Message `i` goes on holding its job, whose status stays active or becomes `retryable_failed`. */
  lemma JobWriteKeeps(w: World, i: nat, m: Message, status: JobStatus, error: Option<string>)
    requires Inv(w) && i < |w.messages| && HoldsJob(w.messages[i])
    requires m.documentId == w.messages[i].documentId && m.retriesLeft <= MAX_RETRIES
    requires !m.state.Saved? && (HoldsJob(m) ==> m.state.jobId == w.messages[i].state.jobId && Active(status))
    requires w.messages[i].state.jobId in w.db.jobs && (status.JobRunning? || status.JobRetryableFailed?)
    ensures Inv(Put(w, i, m).(db := SetJob(w.db, w.messages[i].state.jobId, status, error)))
  {
    hide FormsOk, NoneQueued, IdentitiesOk, BatchesOk, IngestedOnce, JobsOk, PredictionsOk, OverlaysOk, ResultsOk,
      ClassifiedOnce;
    var j := w.messages[i].state.jobId;
    var job := w.db.jobs[j].(status := status, lastError := error);
    assert MessageOk(w.messages[i], w);
    UpdateJob(w.db.jobs, w.db.documents, j, job);
    KeepResults(w.db, w.overlayObjects, j, job);
    OtherJobsUntouched(w, i, job);
    MessagesAfterJobWrite(w, Put(w, i, m).(db := SetJob(w.db, j, status, error)), i);
  }

  lemma MessagesAfterJobWrite(w: World, n: World, i: nat)
    requires MessagesOk(w) && i < |w.messages| == |n.messages|
    requires n.originals == w.originals && n.pending == w.pending && w.overlayObjects <= n.overlayObjects
    requires n.db.documents == w.db.documents
    requires forall k :: 0 <= k < |w.messages| && k != i ==> n.messages[k] == w.messages[k]
    requires n.messages[i].documentId == w.messages[i].documentId && n.messages[i].retriesLeft <= MAX_RETRIES
    requires HoldsJob(n.messages[i]) ==> HoldsActiveJob(n.messages[i], n.db.jobs)
    requires n.messages[i].state.Saved? ==> n.messages[i].documentId in n.overlayObjects
    requires forall k :: 0 <= k < |w.messages| && k != i && HoldsJob(w.messages[k])
               ==> HoldsActiveJob(w.messages[k], n.db.jobs)
    ensures MessagesOk(n)
  {
    forall k | 0 <= k < |n.messages| ensures MessageOk(n.messages[k], n) {
      assert MessageOk(w.messages[k], w);
    }
  }

  lemma StartKeeps(w: World, i: nat)
    requires Inv(w) && i < |w.messages| && w.messages[i].state.Found?
    ensures Inv(StartJob(w, i))
  {
    hide FormsOk, NoneQueued, IdentitiesOk, BatchesOk, IngestedOnce, JobsOk, PredictionsOk, OverlaysOk, ResultsOk,
      ClassifiedOnce;
    var m := w.messages[i];
    assert MessageOk(m, w);
    JobWriteKeeps(w, i, m.(state := Running(m.state.jobId)), JobRunning, w.db.jobs[m.state.jobId].lastError);
  }

  lemma PipelineKeeps(w: World, i: nat, result: Option<Inference>)
    requires Inv(w) && i < |w.messages| && w.messages[i].state.Running?
    ensures Inv(RunPipeline(w, i, result))
  {
    hide FormsOk, NoneQueued, IdentitiesOk, BatchesOk, IngestedOnce, JobsOk, PredictionsOk, OverlaysOk, ResultsOk,
      ClassifiedOnce, KeysOk, IngestOk;
    assert MessageOk(w.messages[i], w);
    PutKeeps(w, i, RunPipeline(w, i, result).messages[i]);
  }

  lemma OverlayKeeps(w: World, i: nat, outcome: Call)
    requires Inv(w) && i < |w.messages| && w.messages[i].state.Computed?
    ensures Inv(UploadOverlay(w, i, outcome))
  {
    hide FormsOk, NoneQueued, IdentitiesOk, BatchesOk, IngestedOnce, JobsOk, PredictionsOk, ResultsOk, ClassifiedOnce;
    assert MessageOk(w.messages[i], w);
    MessagesAfterJobWrite(w, UploadOverlay(w, i, outcome), i);
  }

  /** Drawing keys and not using them is harmless. */
  lemma AdvanceKeeps(w: World, n: Id)
    requires Inv(w) && w.nextId <= n
    ensures Inv(w.(nextId := n))
  {
    hide FormsOk, NoneQueued, IdentitiesOk, BatchesOk, IngestedOnce, JobsOk, PredictionsOk, OverlaysOk, ResultsOk,
      ClassifiedOnce;
    assert Visible(w.(nextId := n)) == Visible(w);
    MessagesFramed(w, w.(nextId := n));
  }

  lemma RollBackKeeps(w: World)
    requires Inv(w)
    ensures Inv(RollBack(w))
  {
    hide Inv;
    DropKeeps(w);
    AdvanceKeeps(Drop(w), RollBack(w).nextId);
  }

  lemma PersistKeeps(w: World, i: nat, publishes: bool)
    requires Inv(w) && i < |w.messages| && w.messages[i].state.Saved?
    ensures Inv(PersistResult(w, i, publishes))
  {
    hide FormsOk, NoneQueued, IdentitiesOk, BatchesOk, IngestedOnce, JobsOk, PredictionsOk, OverlaysOk, ResultsOk,
      ClassifiedOnce;
    var m := w.messages[i];
    var Saved(j, r) := m.state;
    assert MessageOk(m, w);
    if publishes {
      var n := PersistResult(w, i, publishes);
      AddResult(w.db, w.overlayObjects, j, m.documentId, m.meta, r, w.nextId, w.nextId + 1);
      UpdateJob(w.db.jobs, w.db.documents, j, n.db.jobs[j]);
      CountIngestedKept(w.db.events, n.db.events[|w.db.events|], w.db.documents);
      OtherJobsUntouched(w, i, n.db.jobs[j]);
      MessagesAfterJobWrite(w, n, i);
    } else {
      PutKeeps(w, i, m.(state := Failing(j, "persist failed")));
      AdvanceKeeps(PersistResult(w, i, publishes).(nextId := w.nextId), w.nextId + 2);
    }
  }

  lemma CountIngestedKept(events: seq<Event>, e: Event, documents: map<Id, Document>)
    requires IngestedOnce(events, documents) && !e.DocumentIngested?
    ensures IngestedOnce(events + [e], documents)
  {
    forall d ensures Count(events + [e], IngestedDocument(d)) == Count(events, IngestedDocument(d)) {
      CountAppend(events, e, IngestedDocument(d));
    }
  }

  lemma FailKeeps(w: World, i: nat)
    requires Inv(w) && i < |w.messages| && w.messages[i].state.Failing?
    ensures Inv(FailJob(w, i))
  {
    hide FormsOk, NoneQueued, IdentitiesOk, BatchesOk, IngestedOnce, JobsOk, PredictionsOk, OverlaysOk, ResultsOk,
      ClassifiedOnce;
    var m := w.messages[i];
    var Failing(j, error) := m.state;
    assert MessageOk(m, w);
    JobWriteKeeps(w, i, Requeue(m), JobRetryableFailed, Some(error));
    var n := Put(w, i, Requeue(m)).(db := SetJob(w.db, j, JobRetryableFailed, Some(error)));
    AppendOther(n.db.events, ClassificationFailed(j, error), n.db.documents, n.db.jobs);
    MessagesFramed(n, FailJob(w, i));
  }

  // ---- every step, every run ----

  lemma StepKeeps(w: World, s: Step)
    requires Inv(w)
    ensures Inv(Next(w, s))
  {
    hide Inv;
    if Enabled(w, s) {
      match s
      case Begin(path, filename, data, meta) => BeginKeeps(w, path, filename, data, meta);
      case Upload(outcome) => UploadKeeps(w, outcome);
      case Enqueue(outcome) => EnqueueKeeps(w, outcome);
      case Commit(publishes) =>
        if !publishes { RollBackKeeps(w); }
        else if w.ingest.Committing? { CommitIngestKeeps(w); }
        else { CommitRejectionKeeps(w); }
      case CloseSession => DropKeeps(w);
      case Deliver(i) => DeliverKeeps(w, i);
      case MarkRunning(i) => StartKeeps(w, i);
      case Compute(i, result) => PipelineKeeps(w, i, result);
      case SaveOverlay(i, outcome) => OverlayKeeps(w, i, outcome);
      case Persist(i, publishes) => PersistKeeps(w, i, publishes);
      case RecordFailure(i) => FailKeeps(w, i);
      case Acknowledge(i) => FinishKeeps(w, i);
      case Crash(i) => RequeueKeeps(w, i);
    }
  }

  lemma FinishKeeps(w: World, i: nat)
    requires Inv(w) && i < |w.messages|
    ensures Inv(Put(w, i, w.messages[i].(state := Finished)))
  {
    hide FormsOk, NoneQueued, IdentitiesOk, BatchesOk, IngestedOnce, JobsOk, PredictionsOk, OverlaysOk, ResultsOk,
      ClassifiedOnce, KeysOk, IngestOk;
    PutKeeps(w, i, w.messages[i].(state := Finished));
  }

  lemma {:induction false} RunKeeps(w: World, steps: seq<Step>)
    requires Inv(w)
    ensures Inv(Run(w, steps))
    decreases |steps|
  {
    hide Inv;
    if steps != [] {
      StepKeeps(w, steps[0]);
      RunKeeps(Next(w, steps[0]), steps[1..]);
    }
  }

  lemma StartOk(hash: Bytes -> string)
    ensures Inv(Start(hash))
  {
    assert Visible(Start(hash)) == map[];
  }

  /** The invariant holds in every state that any interleaving reaches from an empty system. */
  lemma Reachable(hash: Bytes -> string, steps: seq<Step>)
    ensures Inv(Run(Start(hash), steps))
  {
    hide Inv;
    StartOk(hash);
    RunKeeps(Start(hash), steps);
  }
}
