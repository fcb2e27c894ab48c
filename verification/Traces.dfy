/** Calls as runs: the steps one call of a service takes when nothing else happens in between. */
module Traces {
  import opened Common
  import opened Store
  import opened Protocol
  import opened ProtocolInvariant
  import opened ProtocolProgress

  /** How the remote calls of one `ingest_file` turn out. */
  datatype IngestFaults = IngestFaults(upload: Call, enqueue: Call, commits: bool)

  const NO_FAULTS := IngestFaults(Returns, Returns, true)

  function IngestTrace(path: string, filename: string, data: Bytes, meta: Id, f: IngestFaults): seq<Step> {
    [Begin(path, filename, data, meta), Upload(f.upload), Enqueue(f.enqueue), Commit(f.commits)]
  }

  // ---- one step of an ingestion ----

  lemma AfterBegin(w: World, path: string, filename: string, data: Bytes, meta: Id)
    requires w.ingest.Idle?
    ensures Next(w, Begin(path, filename, data, meta)) == BeginIngest(w, path, filename, data, meta)
  {}

  lemma AfterUpload(w: World, outcome: Call)
    requires w.ingest.Uploading?
    ensures Next(w, Upload(outcome)) == UploadOriginal(w, outcome)
  {}

  lemma AfterEnqueue(w: World, outcome: Call)
    requires w.ingest.Enqueueing?
    ensures Next(w, Enqueue(outcome)) == EnqueueMessage(w, outcome)
  {}

  lemma AfterCommit(w: World, publishes: bool)
    requires w.ingest.Committing?
    ensures Next(w, Commit(publishes)) == if publishes then CommitIngest(w) else RollBack(w)
  {}

  /** Once `ingest_file` has raised, the rest of its steps do not happen. */
  lemma IngestStops(w: World, f: IngestFaults)
    requires w.ingest.Idle?
    ensures Next(w, Upload(f.upload)) == w && Next(w, Enqueue(f.enqueue)) == w && Next(w, Commit(f.commits)) == w
  {}

  /** How one delivery turns out: the pipeline's result, the overlay upload, the final commit. */
  datatype DeliveryFaults = DeliveryFaults(result: Option<Inference>, overlay: Call, commits: bool)

  function DeliveryTrace(i: nat, f: DeliveryFaults): seq<Step> {
    [Deliver(i), MarkRunning(i), Compute(i, f.result), SaveOverlay(i, f.overlay), Persist(i, f.commits),
     RecordFailure(i), Acknowledge(i)]
  }

  lemma RunFour(w: World, a: Step, b: Step, c: Step, d: Step)
    ensures Run(w, [a, b, c, d]) == Next(Next(Next(Next(w, a), b), c), d)
  {
    hide Next;
    var w1 := Next(w, a);
    assert Run(w, [a, b, c, d]) == Run(w1, [b, c, d]);
    var w2 := Next(w1, b);
    assert Run(w1, [b, c, d]) == Run(w2, [c, d]);
    var w3 := Next(w2, c);
    assert Run(w2, [c, d]) == Run(w3, [d]);
    assert Run(w3, [d]) == Run(Next(w3, d), []);
  }

  lemma RunDelivery(w: World, i: nat, f: DeliveryFaults)
    ensures Run(w, DeliveryTrace(i, f))
      == Next(Next(Next(Next(Next(Next(Next(w, Deliver(i)), MarkRunning(i)), Compute(i, f.result)),
              SaveOverlay(i, f.overlay)), Persist(i, f.commits)), RecordFailure(i)), Acknowledge(i))
  {
    hide Next;
    var head := [Deliver(i), MarkRunning(i), Compute(i, f.result), SaveOverlay(i, f.overlay)];
    var tail := [Persist(i, f.commits), RecordFailure(i), Acknowledge(i)];
    assert DeliveryTrace(i, f) == head + tail;
    RunConcat(w, head, tail);
    RunFour(w, head[0], head[1], head[2], head[3]);
    var w4 := Run(w, head);
    var w5 := Next(w4, tail[0]);
    assert Run(w4, tail) == Run(w5, tail[1..]);
    var w6 := Next(w5, tail[1]);
    assert Run(w5, tail[1..]) == Run(w6, [tail[2]]);
    assert Run(w6, [tail[2]]) == Run(Next(w6, tail[2]), []);
  }

  // ---- one step of a delivery, seen from the message and its job ----

  predicate At(w: World, i: nat, state: Delivery) {
    i < |w.messages| && w.messages[i].state == state
  }

  lemma AfterDeliver(w: World, i: nat, j: Id)
    requires At(w, i, Waiting) && ActiveJobs(w.db, w.messages[i].documentId) == {j}
    ensures Next(w, Deliver(i)) == Put(w, i, w.messages[i].(state := Found(j)))
  {}

  lemma AfterStart(w: World, i: nat, j: Id)
    requires At(w, i, Found(j)) && j in w.db.jobs
    ensures Next(w, MarkRunning(i)) == Put(w, i, w.messages[i].(state := Running(j))).(db := RunningRows(w.db, j))
  {}

  lemma AfterCompute(w: World, i: nat, j: Id, result: Option<Inference>)
    requires At(w, i, Running(j))
    ensures var n := Next(w, Compute(i, result));
            n.db == w.db && i < |n.messages|
            && (n.messages[i].state.Failing? || n.messages[i].state.Computed?) && n.messages[i].state.jobId == j
            && (n.messages[i].state.Computed? <==>
                  var d := w.messages[i].documentId;
                  d in w.db.documents && w.db.documents[d].blobKey.Some?
                      && w.db.documents[d].blobKey.value in w.originals
                  && result.Some?)
            && (n.messages[i].state.Computed? ==> n.messages[i].state.result == result.value)
            && n == Put(w, i, w.messages[i].(state := n.messages[i].state)) && n == RunPipeline(w, i, result)
  {}

  lemma AfterOverlay(w: World, i: nat, j: Id, r: Inference, outcome: Call)
    requires At(w, i, Computed(j, r))
    ensures var n := Next(w, SaveOverlay(i, outcome));
            var stored := outcome.Returns? || outcome.tookEffect;
            n == Put(w, i, w.messages[i].(state := if outcome.Returns? then Saved(j, r)
                else Failing(j, "overlay upload failed"))).(
              overlayObjects := if stored then w.overlayObjects + {w.messages[i].documentId} else w.overlayObjects)
  {}

  lemma AfterPersist(w: World, i: nat, j: Id, r: Inference, publishes: bool)
    requires At(w, i, Saved(j, r)) && j in w.db.jobs
    ensures Next(w, Persist(i, publishes)) == PersistResult(w, i, publishes)
  {}

  lemma AfterFailure(w: World, i: nat, j: Id, error: string)
    requires At(w, i, Failing(j, error)) && j in w.db.jobs
    ensures Next(w, RecordFailure(i)) == Put(w, i, Requeue(w.messages[i])).(db := FailureRows(w.db, j, error))
  {}

  lemma AfterAcknowledge(w: World, i: nat)
    requires At(w, i, Persisted)
    ensures Next(w, Acknowledge(i)) == Put(w, i, w.messages[i].(state := Finished))
  {}

  /** An undisturbed delivery of an unsettled job settles it, as succeeded exactly when nothing failed. */
  lemma UndisturbedDelivery(w: World, i: nat, j: Id, f: DeliveryFaults)
    requires Inv(w) && At(w, i, Waiting)
    requires j in w.db.jobs && w.db.jobs[j].documentId == w.messages[i].documentId && Active(w.db.jobs[j].status)
    ensures var n := Run(w, DeliveryTrace(i, f));
            && j in n.db.jobs && Settled(n.db.jobs[j].status)
            && (n.db.jobs[j].status.JobSucceeded? <==> f.result.Some? && f.overlay.Returns? && f.commits)
            && i < |n.messages| && !InFlight(n.messages[i])
  {
    hide Inv, Next;
    RunDelivery(w, i, f);
    DeliveryParts(w, i, j);
    AfterDeliver(w, i, j);
    var w1 := Next(w, Deliver(i));
    AfterStart(w1, i, j);
    DeliveryEnd(Next(w1, MarkRunning(i)), i, j, f);
  }

  lemma DeliveryParts(w: World, i: nat, j: Id)
    requires Inv(w) && i < |w.messages|
    requires j in w.db.jobs && w.db.jobs[j].documentId == w.messages[i].documentId && Active(w.db.jobs[j].status)
    ensures ActiveJobs(w.db, w.messages[i].documentId) == {j}
    ensures var d := w.messages[i].documentId;
            d in w.db.documents && w.db.documents[d].blobKey == Some(d) && d in w.originals
  {
    TheActiveJob(w, j);
    assert FormsOk(w.db.documents, w.hash, w.originals);
    var d := w.messages[i].documentId;
    assert FormOk(d, w.db.documents[d], w.hash, w.originals);
  }

  lemma DeliveryEnd(w: World, i: nat, j: Id, f: DeliveryFaults)
    requires At(w, i, Running(j)) && j in w.db.jobs && w.db.jobs[j].status.JobRunning?
    requires var d := w.messages[i].documentId;
             d in w.db.documents && w.db.documents[d].blobKey == Some(d) && d in w.originals
    ensures var n := Next(Next(Next(Next(Next(w, Compute(i, f.result)), SaveOverlay(i, f.overlay)),
              Persist(i, f.commits)),
                               RecordFailure(i)), Acknowledge(i));
            && j in n.db.jobs && Settled(n.db.jobs[j].status)
            && (n.db.jobs[j].status.JobSucceeded? <==> f.result.Some? && f.overlay.Returns? && f.commits)
            && i < |n.messages| && !InFlight(n.messages[i])
  {
    hide Next, Put;
    var won := f.result.Some? && f.overlay.Returns? && f.commits;
    UpToPersist(w, i, j, f);
    LastSteps(Next(Next(Next(w, Compute(i, f.result)), SaveOverlay(i, f.overlay)), Persist(i, f.commits)), i, j, won);
  }

  /** Where the worker stands after its final commit, and what that commit did to the job. */
  ghost predicate Outcome(w: World, i: nat, j: Id, won: bool) {
    && i < |w.messages| && j in w.db.jobs
    && (if won then w.messages[i].state.Persisted? && w.db.jobs[j].status.JobSucceeded?
        else w.messages[i].state.Failing? && w.messages[i].state.jobId == j)
  }

  lemma UpToPersist(w: World, i: nat, j: Id, f: DeliveryFaults)
    requires At(w, i, Running(j)) && j in w.db.jobs
    requires var d := w.messages[i].documentId;
             d in w.db.documents && w.db.documents[d].blobKey == Some(d) && d in w.originals
    ensures Outcome(Next(Next(Next(w, Compute(i, f.result)), SaveOverlay(i, f.overlay)), Persist(i, f.commits)), i, j,
                    f.result.Some? && f.overlay.Returns? && f.commits)
  {
    hide Next;
    var w3 := Next(w, Compute(i, f.result));
    AfterCompute(w, i, j, f.result);
    hide RunPipeline;
    var w4 := Next(w3, SaveOverlay(i, f.overlay));
    if f.result.Some? {
      AfterOverlay(w3, i, j, f.result.value, f.overlay);
    } else {
      Skips(w3, SaveOverlay(i, f.overlay));
    }
    if f.result.Some? && f.overlay.Returns? {
      AfterPersist(w4, i, j, f.result.value, f.commits);
    } else {
      Skips(w4, Persist(i, f.commits));
    }
  }

  lemma LastSteps(w: World, i: nat, j: Id, won: bool)
    requires Outcome(w, i, j, won)
    ensures var n := Next(Next(w, RecordFailure(i)), Acknowledge(i));
            && j in n.db.jobs && (if won then n.db.jobs[j].status.JobSucceeded?
                else n.db.jobs[j].status.JobRetryableFailed?)
            && i < |n.messages| && !InFlight(n.messages[i])
  {
    hide Next;
    if won { EndInSuccess(w, i); } else { EndInFailure(w, i, j, w.messages[i].state.error); }
  }

  lemma Skips(w: World, s: Step)
    requires !Enabled(w, s)
    ensures Next(w, s) == w
  {}

  /** A delivery that finds no single active job only spends an attempt. */
  lemma DeliveryOfNothing(w: World, i: nat, f: DeliveryFaults)
    requires At(w, i, Waiting) && !ScalarOneOrNone(ActiveJobs(w.db, w.messages[i].documentId)).OneRow?
    ensures Run(w, DeliveryTrace(i, f)) == Put(w, i, Requeue(w.messages[i]))
  {
    hide Next, ActiveJobs;
    RunDelivery(w, i, f);
    AfterIdle(w, i);
    var n := Next(w, Deliver(i));
    Skips(n, MarkRunning(i));
    Skips(n, Compute(i, f.result));
    Skips(n, SaveOverlay(i, f.overlay));
    Skips(n, Persist(i, f.commits));
    Skips(n, RecordFailure(i));
    Skips(n, Acknowledge(i));
  }

  lemma AfterIdle(w: World, i: nat)
    requires At(w, i, Waiting) && !ScalarOneOrNone(ActiveJobs(w.db, w.messages[i].documentId)).OneRow?
    ensures Next(w, Deliver(i)) == Put(w, i, Requeue(w.messages[i]))
  {
    hide ActiveJobs, Put, Requeue;
  }

  /** The end of a delivery whose job is marked failed. */
  lemma EndInFailure(w: World, i: nat, j: Id, error: string)
    requires At(w, i, Failing(j, error)) && j in w.db.jobs
    ensures Next(Next(w, RecordFailure(i)), Acknowledge(i))
      == Put(w, i, Requeue(w.messages[i])).(db := FailureRows(w.db, j, error))
  {
    AfterFailure(w, i, j, error);
    hide Next;
    Skips(Next(w, RecordFailure(i)), Acknowledge(i));
  }

  lemma EndInSuccess(w: World, i: nat)
    requires At(w, i, Persisted)
    ensures Next(Next(w, RecordFailure(i)), Acknowledge(i)) == Put(w, i, w.messages[i].(state := Finished))
  {
    Skips(w, RecordFailure(i));
    AfterAcknowledge(w, i);
  }
}
