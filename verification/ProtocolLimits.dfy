/**
 Where the pipeline does less than its comments say, and exactly when: a queued document that no run
 can classify any more, and a failed upload that is not retried.
 */
module ProtocolLimits {
  import opened Common
  import opened Store
  import opened Protocol
  import opened ProtocolInvariant
  import opened ProtocolFrames
  import opened ProtocolPreservation
  import opened ProtocolProgress
  import opened Traces

  // ---- every job knows its message ----

  ghost predicate JobHasMessage(w: World) {
    forall j :: j in w.db.jobs ==>
      w.db.jobs[j].rqJobId < |w.messages| && w.messages[w.db.jobs[j].rqJobId].documentId == w.db.jobs[j].documentId
  }

  ghost predicate PersistedOk(w: World) {
    forall i :: 0 <= i < |w.messages| && w.messages[i].state.Persisted?
        ==> HasSucceeded(w.db.jobs, w.messages[i].documentId)
  }

  lemma JobHasMessageStep(w: World, s: Step)
    requires JobHasMessage(w) && IngestOk(w) && Below(w.db.jobs.Keys, w.nextId)
    ensures JobHasMessage(Next(w, s))
  {
    hide Next, Enabled, Below;
    forall j | j in Next(w, s).db.jobs
      ensures var n := Next(w, s);
              n.db.jobs[j].rqJobId < |n.messages|
                  && n.messages[n.db.jobs[j].rqJobId].documentId == n.db.jobs[j].documentId
    {
      if j in w.db.jobs {
        JobsStep(w, s, j);
        MessagesStep(w, s, w.db.jobs[j].rqJobId);
      } else {
        NewJobStep(w, s, j);
        MessagesStep(w, s, w.ingest.rqJobId);
      }
    }
  }

  lemma PersistedStep(w: World, s: Step)
    requires PersistedOk(w) && MessagesOk(w) && Below(w.db.jobs.Keys, w.nextId)
    ensures PersistedOk(Next(w, s))
  {
    var n := Next(w, s);
    forall i | 0 <= i < |n.messages| && n.messages[i].state.Persisted?
      ensures HasSucceeded(n.db.jobs, n.messages[i].documentId)
    {
      PersistedMessage(w, s, i);
    }
  }

  lemma PersistedMessage(w: World, s: Step, i: nat)
    requires PersistedOk(w) && MessagesOk(w) && Below(w.db.jobs.Keys, w.nextId)
    requires i < |Next(w, s).messages| && Next(w, s).messages[i].state.Persisted?
    ensures HasSucceeded(Next(w, s).db.jobs, Next(w, s).messages[i].documentId)
  {
    hide Next, Enabled, Below;
    if i < |w.messages| {
      MessagesStep(w, s, i);
      assert MessageOk(w.messages[i], w);
      hide MessageOk;
      if w.messages[i].state.Persisted? {
        var j :| j in w.db.jobs && w.db.jobs[j].documentId == w.messages[i].documentId
            && w.db.jobs[j].status.JobSucceeded?;
        SettledStep(w, s, j);
        assert Next(w, s).db.jobs[j] == w.db.jobs[j];
      } else {
        hide MessagesOk, PersistedOk;
        JustPersisted(w, s, i);
      }
    } else {
      NewMessageWaits(w, s, i);
    }
  }

  lemma JustPersisted(w: World, s: Step, i: nat)
    requires i < |w.messages| && MessageOk(w.messages[i], w) && !w.messages[i].state.Persisted?
    requires i < |Next(w, s).messages| && Next(w, s).messages[i].state.Persisted?
    ensures HasSucceeded(Next(w, s).db.jobs, Next(w, s).messages[i].documentId)
  {
    MessagesStep(w, s, i);
    hide CommitIngest, CommitRejection, UploadOriginal, EnqueueMessage, BeginIngest;
    assert s.Persist? && s.message == i;
    assert Next(w, s).db.jobs[w.messages[i].state.jobId].status.JobSucceeded?;
  }

  lemma {:induction false} MessageOfJob(hash: Bytes -> string, steps: seq<Step>)
    ensures JobHasMessage(Run(Start(hash), steps)) && PersistedOk(Run(Start(hash), steps))
    decreases |steps|
  {
    if steps != [] {
      var front, s := steps[..|steps| - 1], steps[|steps| - 1];
      assert steps == front + [s];
      MessageOfJob(hash, front);
      RunSnoc(Start(hash), front, s);
      Reachable(hash, front);
      var w := Run(Start(hash), front);
      assert IngestOk(w) && MessagesOk(w) && Below(w.db.jobs.Keys, w.nextId);
      hide *;
      JobHasMessageStep(w, s);
      PersistedStep(w, s);
    }
  }

  // ---- when a document can still be classified ----

  /** The message is used up, or about to be used up by recording a failure. */
  predicate Lost(m: Message) {
    Spent(m) || (m.state.Failing? && m.retriesLeft == 0)
  }

  ghost predicate Doomed(w: World, i: nat, j: Id) {
    && i < |w.messages| && j in w.db.jobs && w.db.jobs[j].documentId == w.messages[i].documentId
    && !w.db.jobs[j].status.JobSucceeded? && (Lost(w.messages[i]) || w.db.jobs[j].status.JobRetryableFailed?)
  }

  lemma DoomedStep(w: World, s: Step, i: nat, j: Id)
    requires MessagesOk(w) && JobsOk(w.db.jobs, w.db.documents) && Below(w.db.jobs.Keys, w.nextId) && Doomed(w, i, j)
    ensures Doomed(Next(w, s), i, j)
  {
    hide Next, Enabled, Below, Lost;
    MessagesStep(w, s, i);
    if w.db.jobs[j].status.JobRetryableFailed? {
      SettledStep(w, s, j);
    } else {
      JobsStep(w, s, j);
      assert MessageOk(w.messages[i], w);
      if IsWorkerStep(s) && s.message < |w.messages| && s.message != i {
        assert MessageOk(w.messages[s.message], w);
        assert w.messages[s.message].documentId != w.messages[i].documentId;
      } else if IsWorkerStep(s) && Enabled(w, s) && s.message == i {
        OwnStepOfLost(w, s, i, j);
      }
      hide MessagesOk, JobsOk;
    }
  }

  lemma OwnStepOfLost(w: World, s: Step, i: nat, j: Id)
    requires IsWorkerStep(s) && Enabled(w, s) && s.message == i && Lost(w.messages[i]) && j in w.db.jobs
    ensures Lost(Next(w, s).messages[i]) && j in Next(w, s).db.jobs
    ensures Next(w, s).db.jobs[j].status.JobSucceeded? ==> w.db.jobs[j].status.JobSucceeded?
  {
    assert s.RecordFailure? || s.Crash?;
  }

  lemma {:induction false} DoomedForever(w: World, steps: seq<Step>, i: nat, j: Id)
    requires Inv(w) && Doomed(w, i, j)
    ensures Doomed(Run(w, steps), i, j)
    decreases |steps|
  {
    if steps != [] {
      assert MessagesOk(w) && JobsOk(w.db.jobs, w.db.documents) && Below(w.db.jobs.Keys, w.nextId);
      hide Inv, MessagesOk, JobsOk, Below, Doomed;
      DoomedStep(w, steps[0], i, j);
      StepKeeps(w, steps[0]);
      DoomedForever(Next(w, steps[0]), steps[1..], i, j);
    }
  }

  /** A job that is not settled and whose message is not lost. */
  ghost predicate Hopeful(w: World, i: nat, j: Id) {
    && i < |w.messages| && j in w.db.jobs && w.db.jobs[j].documentId == w.messages[i].documentId
    && Active(w.db.jobs[j].status) && !Lost(w.messages[i]) && !w.messages[i].state.Persisted?
  }

  /** The step that brings a hopeful job nearer to success. */
  function Forward(w: World, i: nat, r: Inference): Step
    requires i < |w.messages|
  {
    match w.messages[i].state
    case Waiting => Deliver(i)
    case Found(_) => MarkRunning(i)
    case Running(_) => Compute(i, Some(r))
    case Computed(_, _) => SaveOverlay(i, Returns)
    case Saved(_, _) => Persist(i, true)
    case _ => Crash(i)
  }

  lemma ForwardStep(w: World, i: nat, j: Id, r: Inference)
    requires Hopeful(w, i, j) && MessageOk(w.messages[i], w)
    requires JobsOk(w.db.jobs, w.db.documents) && FormsOk(w.db.documents, w.hash, w.originals)
    ensures var s := Forward(w, i, r);
            var n := Next(w, s);
            && Enabled(w, s) && i < |n.messages| && Fuel(n.messages[i]) < Fuel(w.messages[i])
            && (Hopeful(n, i, j) || (j in n.db.jobs && n.db.jobs[j].status.JobSucceeded?))
  {
    hide Next, Fuel, JobsOk, FormsOk, MessageOk, Enabled, ActiveJobs, Put, StartJob, RunPipeline, UploadOverlay,
      PersistResult, Requeue;
    ForwardEnabled(w, i, j, r);
    FuelStep(w, Forward(w, i, r));
    ForwardHopes(w, i, j, r);
  }

  lemma ForwardEnabled(w: World, i: nat, j: Id, r: Inference)
    requires Hopeful(w, i, j)
    ensures Enabled(w, Forward(w, i, r)) && IsWorkerStep(Forward(w, i, r)) && Forward(w, i, r).message == i
  {}

  lemma ForwardHopes(w: World, i: nat, j: Id, r: Inference)
    requires Hopeful(w, i, j) && MessageOk(w.messages[i], w)
    requires JobsOk(w.db.jobs, w.db.documents) && FormsOk(w.db.documents, w.hash, w.originals)
    ensures var n := Next(w, Forward(w, i, r));
            i < |n.messages| && (Hopeful(n, i, j) || (j in n.db.jobs && n.db.jobs[j].status.JobSucceeded?))
  {
    hide Next, Enabled, ActiveJobs, JobsOk, FormsOk, MessageOk, FailureRows, NewPrediction;
    HolderOf(w, i, j);
    DocumentOfJob(w, j);
    match w.messages[i].state
    case Waiting => AfterDeliver(w, i, j);
    case Found(_) => AfterStart(w, i, j);
    case Running(_) => AfterCompute(w, i, j, Some(r));
    case Computed(_, result) => AfterOverlay(w, i, j, result, Returns);
    case Saved(_, result) => AfterPersist(w, i, j, result, true);
    case Failing(_, _) => AfterCrash(w, i);
  }

  lemma HolderOf(w: World, i: nat, j: Id)
    requires Hopeful(w, i, j) && MessageOk(w.messages[i], w) && JobsOk(w.db.jobs, w.db.documents)
    ensures ActiveJobs(w.db, w.messages[i].documentId) == {j}
    ensures HoldsJob(w.messages[i]) ==> w.messages[i].state.jobId == j
  {
    TheActiveJob(w, j);
  }

  lemma AfterCrash(w: World, i: nat)
    requires Enabled(w, Crash(i))
    ensures Next(w, Crash(i)) == Put(w, i, Requeue(w.messages[i]))
  {}

  lemma DocumentOfJob(w: World, j: Id)
    requires JobsOk(w.db.jobs, w.db.documents) && FormsOk(w.db.documents, w.hash, w.originals) && j in w.db.jobs
    ensures var d := w.db.jobs[j].documentId;
            d in w.db.documents && w.db.documents[d].blobKey == Some(d) && d in w.originals
  {
    assert FormOk(w.db.jobs[j].documentId, w.db.documents[w.db.jobs[j].documentId], w.hash, w.originals);
  }

  lemma PartsOf(w: World, i: nat)
    requires Inv(w) && i < |w.messages|
    ensures MessageOk(w.messages[i], w) && JobsOk(w.db.jobs, w.db.documents)
    ensures FormsOk(w.db.documents, w.hash, w.originals)
  {
    hide JobsOk, FormsOk, MessageOk;
  }

  lemma {:induction false} WayToSuccess(w: World, i: nat, j: Id, r: Inference) returns (steps: seq<Step>)
    requires Inv(w) && Hopeful(w, i, j)
    ensures j in Run(w, steps).db.jobs && Run(w, steps).db.jobs[j].status.JobSucceeded?
    decreases Fuel(w.messages[i])
  {
    hide Inv, JobsOk, FormsOk, MessagesOk, MessageOk, Next, Forward, Fuel;
    var s := Forward(w, i, r);
    PartsOf(w, i);
    ForwardStep(w, i, j, r);
    StepKeeps(w, s);
    assert Run(w, [s]) == Run(Next(w, s), []);
    if Hopeful(Next(w, s), i, j) {
      var rest := WayToSuccess(Next(w, s), i, j, r);
      steps := [s] + rest;
      assert steps[0] == s && steps[1..] == rest;
    } else {
      steps := [s];
    }
  }

  ghost predicate CanSucceed(w: World, j: Id) {
    exists steps :: j in Run(w, steps).db.jobs && Run(w, steps).db.jobs[j].status.JobSucceeded?
  }

  /**
   An unsettled job can still succeed if and only if its RQ message is not lost. The comment at
   `_CLASSIFICATION_RETRY` promises retries after every failure; a document whose message was used up,
   by deliveries before the commit or by killed workers, stays `queued` for ever.
   */
  lemma ClassifiableIff(hash: Bytes -> string, steps: seq<Step>, j: Id)
    requires j in Run(Start(hash), steps).db.jobs && Active(Run(Start(hash), steps).db.jobs[j].status)
    ensures var w := Run(Start(hash), steps);
            && w.db.jobs[j].rqJobId < |w.messages|
            && (CanSucceed(w, j) <==> !Lost(w.messages[w.db.jobs[j].rqJobId]))
  {
    Reachable(hash, steps);
    MessageOfJob(hash, steps);
    var w := Run(Start(hash), steps);
    var i := w.db.jobs[j].rqJobId;
    if Lost(w.messages[i]) {
      NeverSucceeds(w, i, j);
    } else {
      NotPersisted(w, i, j);
      var way := WayToSuccess(w, i, j, Inference("", 0.0, map[]));
    }
  }

  lemma NeverSucceeds(w: World, i: nat, j: Id)
    requires Inv(w) && Doomed(w, i, j)
    ensures !CanSucceed(w, j)
  {
    forall steps | j in Run(w, steps).db.jobs ensures !Run(w, steps).db.jobs[j].status.JobSucceeded? {
      DoomedForever(w, steps, i, j);
    }
  }

  lemma NotPersisted(w: World, i: nat, j: Id)
    requires PersistedOk(w) && JobsOk(w.db.jobs, w.db.documents) && i < |w.messages|
    requires j in w.db.jobs && w.db.jobs[j].documentId == w.messages[i].documentId && Active(w.db.jobs[j].status)
    ensures !w.messages[i].state.Persisted?
  {}

  /** One such document: RQ delivers its message four times before the ingestion worker commits. */
  lemma DeliveredTooEarly(hash: Bytes -> string, path: string, filename: string, data: Bytes, meta: Id)
    requires IsTiff(data)
    ensures var w := Run(Start(hash), [Begin(path, filename, data, meta), Upload(Returns), Enqueue(Returns),
                                       Deliver(0), Deliver(0), Deliver(0), Deliver(0), Commit(true)]);
            2 in w.db.jobs && w.db.jobs[2].status.JobQueued? && !CanSucceed(w, 2)
  {
    hide Next;
    var w0 := Start(hash);
    assert Duplicates(Visible(w0), hash(data), path) == {};
    var w1 := Next(w0, Begin(path, filename, data, meta));
    AfterBegin(w0, path, filename, data, meta);
    var w2 := Next(w1, Upload(Returns));
    AfterUpload(w1, Returns);
    var w3 := Next(w2, Enqueue(Returns));
    AfterEnqueue(w2, Returns);
    assert ActiveJobs(w3.db, 1) == {};
    var d := Deliver(0);
    IdleDelivery(w3, 0);
    var w5 := Next(Next(w3, d), d);
    IdleDelivery(Next(w3, d), 0);
    var w7 := Next(Next(w5, d), d);
    IdleDelivery(w5, 0);
    IdleDelivery(Next(w5, d), 0);
    assert w7.messages[0].state.Dead?;
    AfterCommit(w7, true);
    var steps := [Begin(path, filename, data, meta), Upload(Returns), Enqueue(Returns), d, d, d, d, Commit(true)];
    var w8 := Next(w7, Commit(true));
    assert Run(w0, steps) == w8 by {
      RunEight(w0, steps);
    }
    Reachable(hash, steps);
    NeverSucceeds(w8, 0, 2);
  }

  lemma RunEight(w: World, s: seq<Step>)
    requires |s| == 8
    ensures Run(w, s) == Next(Next(Next(Next(Next(Next(Next(Next(w, s[0]), s[1]), s[2]), s[3]), s[4]), s[5]), s[6]),
              s[7])
  {
    hide Next;
    var w1, a := Next(w, s[0]), s[1..];
    assert Run(w, s) == Run(w1, a);
    var w2, b := Next(w1, a[0]), a[1..];
    assert Run(w1, a) == Run(w2, b);
    var w3, c := Next(w2, b[0]), b[1..];
    assert Run(w2, b) == Run(w3, c);
    var w4, e := Next(w3, c[0]), c[1..];
    assert Run(w3, c) == Run(w4, e);
    var w5, f := Next(w4, e[0]), e[1..];
    assert Run(w4, e) == Run(w5, f);
    var w6, g := Next(w5, f[0]), f[1..];
    assert Run(w5, f) == Run(w6, g);
    var w7, h := Next(w6, g[0]), g[1..];
    assert Run(w6, g) == Run(w7, h);
    assert Run(w7, h) == Run(Next(w7, h[0]), []);
  }

  // ---- when a failed upload is retried ----

  datatype Fate = Undecided | Published | Dropped

  /** What one step does to the rows the ingestion session has flushed. */
  predicate Publishes(w: World, s: Step) { Enabled(w, s) && s.Commit? && s.publishes }

  predicate Drops(w: World, s: Step) { Enabled(w, s) && (s.CloseSession? || (s.Commit? && !s.publishes)) }

  /** The fate of the rows flushed in `w`: decided by the first commit or close that follows. */
  ghost function FateOf(w: World, steps: seq<Step>): Fate
    decreases |steps|
  {
    if steps == [] then Undecided
    else if Publishes(w, steps[0]) then Published
    else if Drops(w, steps[0]) then Dropped
    else FateOf(Next(w, steps[0]), steps[1..])
  }

  ghost predicate Present(w: World, checksum: string, path: string) {
    Duplicates(Visible(w), checksum, path) != {}
  }

  /** All documents of that content and path, whatever their status. */
  function DocumentsAt(documents: map<Id, Document>, checksum: string, path: string): set<Id> {
    set d | d in documents && documents[d].checksum == checksum && documents[d].sourcePath == path
  }

  /** No document in sight has failed, so that the duplicate query overlooks none. */
  lemma DuplicatesAreAll(w: World, checksum: string, path: string)
    requires Inv(w)
    ensures Duplicates(Visible(w), checksum, path) == DocumentsAt(Visible(w), checksum, path)
  {
    assert FormsOk(w.db.documents, w.hash, w.originals) && FormsOk(w.pending.documents, w.hash, w.originals);
    hide Inv;
    forall d | d in Visible(w) ensures !Visible(w)[d].status.Failed? {
      assert FormOk(d, Visible(w)[d], w.hash, w.originals);
    }
  }

  ghost predicate Has(documents: map<Id, Document>, d: Id, checksum: string, path: string) {
    d in documents && documents[d].checksum == checksum && documents[d].sourcePath == path
  }

  lemma CommittedStep(w: World, s: Step, d: Id, checksum: string, path: string)
    requires w.db.documents.Keys !! w.pending.documents.Keys && Has(w.db.documents, d, checksum, path)
    ensures Has(Next(w, s).db.documents, d, checksum, path)
  {
    hide Next, Enabled, BeginIngest, UploadOriginal, EnqueueMessage, CommitIngest, CommitRejection, Drop, RollBack;
    if IsWorkerStep(s) {
      WorkersKeepDocuments(w, s);
    } else {
      IngestKeepsCommitted(w, s, d);
    }
  }

  lemma IngestKeepsCommitted(w: World, s: Step, d: Id)
    requires !IsWorkerStep(s) && d in w.db.documents && d !in w.pending.documents
    ensures d in Next(w, s).db.documents && Next(w, s).db.documents[d] == w.db.documents[d]
  {
    hide CommitIngest, CommitRejection, IsTiff, Duplicates, SourceDir;
    if Enabled(w, s) && s.Commit? {
      CommitKeepsCommitted(w, d);
    }
  }

  lemma CommitKeepsCommitted(w: World, d: Id)
    requires d in w.db.documents && d !in w.pending.documents
    ensures w.ingest.Committing? ==>
      d in CommitIngest(w).db.documents && CommitIngest(w).db.documents[d] == w.db.documents[d]
    ensures w.ingest.Rejecting? ==>
      d in CommitRejection(w).db.documents && CommitRejection(w).db.documents[d] == w.db.documents[d]
  {}

  lemma PendingStep(w: World, s: Step, d: Id, checksum: string, path: string)
    requires IngestOk(w) && BatchesOk(w.pending.batches, w.pending.documents)
    requires Below(w.pending.documents.Keys, w.nextId)
    requires Has(w.pending.documents, d, checksum, path)
    ensures Publishes(w, s) ==> Has(Next(w, s).db.documents, d, checksum, path)
    ensures Drops(w, s) ==> Next(w, s).db == w.db && Next(w, s).pending == NOTHING
    ensures !Publishes(w, s) && !Drops(w, s) ==> Has(Next(w, s).pending.documents, d, checksum, path)
  {
    if IsWorkerStep(s) {
      WorkersKeepDocuments(w, s);
    } else if s.Commit? && Publishes(w, s) && w.ingest.Committing? {
      BatchOf(w.pending.batches, w.pending.documents, w.ingest.documentId);
      hide BatchesOk;
    } else {
      hide BatchesOk, CommitIngest;
    }
  }

  /** Only an ingestion of that path brings a document of that path into view. */
  lemma AbsentStep(w: World, s: Step, path: string, checksum: string)
    requires !(s.Begin? && s.path == path) && w.db.documents.Keys !! w.pending.documents.Keys
    requires forall d :: !Has(Visible(w), d, checksum, path)
    ensures forall d :: !Has(Visible(Next(w, s)), d, checksum, path)
  {
    forall d | Has(Visible(Next(w, s)), d, checksum, path) ensures false {
      assert !Has(Visible(w), d, checksum, path);
      NewlyVisible(w, s, d);
    }
  }

  lemma NewlyVisible(w: World, s: Step, d: Id)
    requires d in Visible(Next(w, s)) && w.db.documents.Keys !! w.pending.documents.Keys
    ensures (d in Visible(w) && SameIdentity(Visible(w)[d], Visible(Next(w, s))[d]))
            || (s.Begin? && Visible(Next(w, s))[d].sourcePath == s.path)
  {
    if IsWorkerStep(s) {
      WorkersKeepDocuments(w, s);
    } else if Publishes(w, s) {
      NewlyCommitted(w, s, d);
    } else {
      NewlyFlushed(w, s, d);
    }
  }

  lemma NewlyFlushed(w: World, s: Step, d: Id)
    requires !IsWorkerStep(s) && !Publishes(w, s) && d in Visible(Next(w, s))
    requires w.db.documents.Keys !! w.pending.documents.Keys
    ensures (d in Visible(w) && SameIdentity(Visible(w)[d], Visible(Next(w, s))[d]))
            || (s.Begin? && Visible(Next(w, s))[d].sourcePath == s.path)
  {
    hide CommitIngest, CommitRejection, DeliverMessage, StartJob, RunPipeline, UploadOverlay, PersistResult, FailJob,
      Visible, IsTiff, Duplicates, SourceDir;
    if !Enabled(w, s) {
    } else if s.Begin? {
      FlushedByBegin(w, s.path, s.filename, s.data, s.meta, d);
    } else if s.Upload? {
      FlushedByUpload(w, s.outcome, d);
    } else if s.Enqueue? {
      SameVisible(w, Next(w, s));
    } else {
      FlushedByDrop(w, d);
    }
    hide BeginIngest, UploadOriginal, EnqueueMessage, Drop, RollBack;
  }

  lemma FlushedByBegin(w: World, path: string, filename: string, data: Bytes, meta: Id, d: Id)
    requires d in Visible(BeginIngest(w, path, filename, data, meta))
    ensures var n := Visible(BeginIngest(w, path, filename, data, meta));
            (d in Visible(w) && SameIdentity(Visible(w)[d], n[d])) || n[d].sourcePath == path
  {
    hide IsTiff, Duplicates, SourceDir;
  }

  lemma FlushedByUpload(w: World, outcome: Call, d: Id)
    requires w.ingest.Uploading? && d in Visible(UploadOriginal(w, outcome))
    ensures d in Visible(w) && SameIdentity(Visible(w)[d], Visible(UploadOriginal(w, outcome))[d])
  {}

  lemma FlushedByDrop(w: World, d: Id)
    requires w.db.documents.Keys !! w.pending.documents.Keys
    ensures d in Visible(Drop(w)) ==> d in Visible(w) && Visible(w)[d] == Visible(Drop(w))[d]
    ensures d in Visible(RollBack(w)) ==> d in Visible(w) && Visible(w)[d] == Visible(RollBack(w))[d]
  {}

  lemma NewlyCommitted(w: World, s: Step, d: Id)
    requires Publishes(w, s) && d in Visible(Next(w, s)) && w.db.documents.Keys !! w.pending.documents.Keys
    ensures d in Visible(w) && SameIdentity(Visible(w)[d], Visible(Next(w, s))[d])
  {
    if w.ingest.Committing? {
      IngestCommitted(w, d);
    } else {
      assert Visible(CommitRejection(w)) == Visible(w);
    }
    hide Visible;
  }

  lemma IngestCommitted(w: World, d: Id)
    requires w.ingest.Committing? && d in Visible(CommitIngest(w)) && w.db.documents.Keys !! w.pending.documents.Keys
    ensures d in Visible(w) && SameIdentity(Visible(w)[d], Visible(CommitIngest(w))[d])
  {
    var x := w.ingest.documentId;
    if x in w.pending.documents && w.pending.documents[x].batchId in w.pending.batches {
      var doc := w.pending.documents[x];
      var batch := w.pending.batches[doc.batchId];
      CommittedRows(w, x, doc.(status := Queued), batch.(documentCount := batch.documentCount + 1));
      hide CommitIngest, Visible;
    } else {
      assert CommitIngest(w) == Drop(w);
    }
  }

  lemma {:induction false} CommittedStays(w: World, steps: seq<Step>, d: Id, checksum: string, path: string)
    requires Inv(w) && Has(w.db.documents, d, checksum, path)
    ensures Inv(Run(w, steps)) && Has(Run(w, steps).db.documents, d, checksum, path)
    decreases |steps|
  {
    if steps != [] {
      PendingParts(w);
      hide Inv;
      CommittedStep(w, steps[0], d, checksum, path);
      StepKeeps(w, steps[0]);
      CommittedStays(Next(w, steps[0]), steps[1..], d, checksum, path);
    }
  }

  lemma {:induction false} AbsentStays(w: World, steps: seq<Step>, checksum: string, path: string)
    requires Inv(w) && forall s :: s in steps ==> !(s.Begin? && s.path == path)
    requires forall d :: !Has(Visible(w), d, checksum, path)
    ensures forall d :: !Has(Visible(Run(w, steps)), d, checksum, path)
    decreases |steps|
  {
    if steps != [] {
      PendingParts(w);
      hide Inv, Has, Visible;
      AbsentStep(w, steps[0], path, checksum);
      StepKeeps(w, steps[0]);
      AbsentStays(Next(w, steps[0]), steps[1..], checksum, path);
    }
  }

  /**
   The log line after a storage failure says the file is retried on the next poll. It is, in the sense
   that the next `ingest_file` of the same path and content finds no duplicate, if and only if the session
   was closed or rolled back before any commit: otherwise the half-ingested row is found and skipped.
   */
  lemma {:induction false} RetriedIffDropped(w: World, steps: seq<Step>, d: Id, checksum: string, path: string)
    requires Inv(w) && Has(w.pending.documents, d, checksum, path)
    requires forall s :: s in steps ==> !(s.Begin? && s.path == path)
    ensures FateOf(w, steps) == Dropped <==> !Present(Run(w, steps), checksum, path)
    decreases |steps|
  {
    hide Inv, IngestOk, BatchesOk, IdentitiesOk, Next, Has, Present, Visible;
    if steps == [] {
      PresentIf(w, d, checksum, path);
    } else {
      var s, n := steps[0], Next(w, steps[0]);
      PendingParts(w);
      PendingStep(w, s, d, checksum, path);
      StepKeeps(w, s);
      if Publishes(w, s) {
        CommittedStays(n, steps[1..], d, checksum, path);
        PresentIf(Run(w, steps), d, checksum, path);
      } else if Drops(w, s) {
        UniqueIdentity(w, d, checksum, path);
        AfterDrop(w, n, checksum, path);
        AbsentStays(n, steps[1..], checksum, path);
        assert Run(w, steps) == Run(n, steps[1..]);
        AbsentIf(Run(n, steps[1..]), checksum, path);
      } else {
        RetriedIffDropped(n, steps[1..], d, checksum, path);
      }
    }
  }

  lemma AfterDrop(w: World, n: World, checksum: string, path: string)
    requires n.db == w.db && n.pending == NOTHING && forall e :: !Has(w.db.documents, e, checksum, path)
    ensures forall e :: !Has(Visible(n), e, checksum, path)
  {
    assert Visible(n) == w.db.documents;
  }

  lemma PendingParts(w: World)
    requires Inv(w)
    ensures IngestOk(w) && BatchesOk(w.pending.batches, w.pending.documents) && IdentitiesOk(Visible(w))
    ensures w.db.documents.Keys !! w.pending.documents.Keys && Below(w.pending.documents.Keys, w.nextId)
  {
    hide FormsOk, NoneQueued, IdentitiesOk, BatchesOk, IngestedOnce, JobsOk, PredictionsOk, OverlaysOk, ResultsOk,
      ClassifiedOnce, MessagesOk, IngestOk;
  }

  lemma PresentIf(w: World, d: Id, checksum: string, path: string)
    requires Inv(w) && (Has(w.db.documents, d, checksum, path) || Has(w.pending.documents, d, checksum, path))
    ensures Present(w, checksum, path)
  {
    assert FormsOk(w.db.documents, w.hash, w.originals) && FormsOk(w.pending.documents, w.hash, w.originals);
    assert Visible(w)[d] == if d in w.pending.documents then w.pending.documents[d] else w.db.documents[d];
    assert d in Duplicates(Visible(w), checksum, path);
  }

  lemma AbsentIf(w: World, checksum: string, path: string)
    requires forall d :: !Has(Visible(w), d, checksum, path)
    ensures !Present(w, checksum, path)
  {
    assert forall d :: d in Duplicates(Visible(w), checksum, path) ==> Has(Visible(w), d, checksum, path);
  }

  lemma UniqueIdentity(w: World, d: Id, checksum: string, path: string)
    requires w.db.documents.Keys !! w.pending.documents.Keys && IdentitiesOk(Visible(w))
    requires Has(w.pending.documents, d, checksum, path)
    ensures forall e :: !Has(w.db.documents, e, checksum, path)
  {
    assert Visible(w)[d] == w.pending.documents[d];
    forall e | e in w.db.documents ensures !Has(w.db.documents, e, checksum, path) {
      assert e != d && Visible(w)[e] == w.db.documents[e];
      assert !SameIdentity(Visible(w)[e], Visible(w)[d]);
    }
  }
}
