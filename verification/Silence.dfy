/** Polls over a directory whose files are all there already: the inference workers cannot tell that they happen. */
module Silence {
  import opened Common
  import opened Audit
  import opened Store
  import opened Protocol
  import opened Traces
  import opened Stability
  import opened Polling
  import opened Convergence

  // ---- a converged directory is silent ----

  function Rejection(e: Entry): Event {
    IngestionFailed(e.info.remotePath, e.info.filename)
  }

  /** One event for each entry that is no TIFF. */
  function Rejections(es: seq<Entry>): seq<Event> {
    if es == [] then []
    else (if IsTiff(es[0].data) then [] else [Rejection(es[0])]) + Rejections(es[1..])
  }

  /** The log of the ingestion worker's rejections, and everything else in the log. */
  function Failures(log: seq<Event>): seq<Event> {
    if log == [] then []
    else Failures(log[..|log| - 1]) + (if log[|log| - 1].IngestionFailed? then [log[|log| - 1]] else [])
  }

  function Others(log: seq<Event>): seq<Event> {
    if log == [] then []
    else Others(log[..|log| - 1]) + (if log[|log| - 1].IngestionFailed? then [] else [log[|log| - 1]])
  }

  lemma SplitSnoc(log: seq<Event>, e: Event)
    ensures Failures(log + [e]) == Failures(log) + (if e.IngestionFailed? then [e] else [])
    ensures Others(log + [e]) == Others(log) + (if e.IngestionFailed? then [] else [e])
  {
    assert (log + [e])[..|log|] == log;
  }

  /** The world the inference workers see: another log, and no ingestion under way. */
  function Masked(w: World, log: seq<Event>): World {
    w.(db := w.db.(events := log), ingest := Idle)
  }

  /** `n` continues the log of `w` by what an inference worker writes: nothing, or one event. */
  ghost predicate Appends(w: World, n: World, log: seq<Event>, more: seq<Event>) {
    || (n.db.events == w.db.events && more == log)
    || (exists e: Event :: !e.IngestionFailed? && n.db.events == w.db.events + [e] && more == log + [e])
  }

  /** What a worker does in `w` to reach `n`, it does behind the mask to reach `m`. */
  ghost predicate SameWork(w: World, n: World, m: World, log: seq<Event>) {
    && m == Masked(n, m.db.events) && Appends(w, n, log, m.db.events)
    && n.ingest == w.ingest && n.pending == w.pending && n.db.documents == w.db.documents && n.hash == w.hash
  }

  lemma WorkerMasked(w: World, s: Step, log: seq<Event>)
    requires IsWorkerStep(s)
    ensures SameWork(w, Next(w, s), Next(Masked(w, log), s), log)
  {
    hide SameWork, Masked, DeliverMessage, StartJob, RunPipeline, UploadOverlay, PersistResult, FailJob, Put;
    EnabledMasked(w, s, log);
    IdleMasked(w, log);
    if Enabled(w, s) {
      match s
      case Deliver(i) => DeliverMasked(w, i, log);
      case MarkRunning(i) => StartMasked(w, i, log);
      case Compute(i, result) => ComputeMasked(w, i, result, log);
      case SaveOverlay(i, outcome) => OverlayMasked(w, i, outcome, log);
      case Persist(i, publishes) => PersistMasked(w, i, publishes, log);
      case RecordFailure(i) => FailMasked(w, i, log);
      case Acknowledge(i) => PutMasked(w, i, w.messages[i].(state := Finished), log);
      case Crash(i) => PutMasked(w, i, Requeue(w.messages[i]), log);
    }
  }

  lemma EnabledMasked(w: World, s: Step, log: seq<Event>)
    requires IsWorkerStep(s)
    ensures Enabled(Masked(w, log), s) <==> Enabled(w, s)
    ensures Masked(w, log).messages == w.messages
  {}

  lemma IdleMasked(w: World, log: seq<Event>)
    ensures SameWork(w, w, Masked(w, log), log)
  {}

  lemma PutMasked(w: World, i: nat, m: Message, log: seq<Event>)
    requires i < |w.messages|
    ensures SameWork(w, Put(w, i, m), Put(Masked(w, log), i, m), log)
  {}

  lemma DeliverMasked(w: World, i: nat, log: seq<Event>)
    requires i < |w.messages|
    ensures SameWork(w, DeliverMessage(w, i), DeliverMessage(Masked(w, log), i), log)
  {
    assert ActiveJobs(Masked(w, log).db, w.messages[i].documentId) == ActiveJobs(w.db, w.messages[i].documentId);
    hide ActiveJobs;
  }

  lemma StartMasked(w: World, i: nat, log: seq<Event>)
    requires i < |w.messages| && w.messages[i].state.Found?
    ensures SameWork(w, StartJob(w, i), StartJob(Masked(w, log), i), log)
  {}

  lemma ComputeMasked(w: World, i: nat, result: Option<Inference>, log: seq<Event>)
    requires i < |w.messages| && w.messages[i].state.Running?
    ensures SameWork(w, RunPipeline(w, i, result), RunPipeline(Masked(w, log), i, result), log)
  {
    var n := RunPipeline(w, i, result).messages[i];
    PipelinePuts(w, i, result);
    PipelinePuts(Masked(w, log), i, result);
    hide RunPipeline;
    PutMasked(w, i, n, log);
  }

  /** The pipeline only moves its message, and does not look at the log. */
  lemma PipelinePuts(w: World, i: nat, result: Option<Inference>)
    requires i < |w.messages| && w.messages[i].state.Running?
    ensures RunPipeline(w, i, result) == Put(w, i, RunPipeline(w, i, result).messages[i])
    ensures forall log :: RunPipeline(Masked(w, log), i, result).messages[i] == RunPipeline(w, i, result).messages[i]
  {}

  lemma OverlayMasked(w: World, i: nat, outcome: Call, log: seq<Event>)
    requires i < |w.messages| && w.messages[i].state.Computed?
    ensures SameWork(w, UploadOverlay(w, i, outcome), UploadOverlay(Masked(w, log), i, outcome), log)
  {}

  lemma PersistMasked(w: World, i: nat, publishes: bool, log: seq<Event>)
    requires i < |w.messages| && w.messages[i].state.Saved?
    ensures SameWork(w, PersistResult(w, i, publishes), PersistResult(Masked(w, log), i, publishes), log)
  {
    hide NewPrediction;
  }

  lemma FailMasked(w: World, i: nat, log: seq<Event>)
    requires i < |w.messages| && w.messages[i].state.Failing?
    ensures SameWork(w, FailJob(w, i), FailJob(Masked(w, log), i), log)
  {}

  // ---- the ingestion worker over entries that are there already ----

  /** Where it may be then: nowhere, or about to report the first entry. */
  ghost predicate Quiet(w: World, es: seq<Entry>, k: nat) {
    && AllHeld(w, es) && (SomeRejected(es) ==> w.pending == NOTHING)
    && if k == 0 || (es != [] && IsTiff(es[0].data)) then w.ingest.Idle?
       else es != [] && w.ingest == Rejecting(es[0].info.remotePath, es[0].info.filename)
  }

  /** Only the log and the point of the ingestion worker may differ. */
  ghost predicate SameBut(w: World, n: World) {
    n == w.(db := w.db.(events := n.db.events), ingest := n.ingest)
  }

  lemma SameHeld(w: World, n: World, es: seq<Entry>)
    requires SameBut(w, n)
    ensures AllHeld(w, es) ==> AllHeld(n, es)
    ensures forall log :: Masked(n, log) == Masked(w, log)
  {
    assert Visible(n) == Visible(w);
    hide Visible, Duplicates;
  }

  lemma QuietBegin(w: World, e: Entry, meta: Id)
    requires w.ingest.Idle? && (IsTiff(e.data) ==> Held(w, e))
    ensures Next(w, EntrySteps(e, meta)[0]) == if IsTiff(e.data) then w
              else w.(ingest := Rejecting(e.info.remotePath, e.info.filename))
  {
    hide Next;
    AfterBegin(w, e.info.remotePath, e.info.filename, e.data, meta);
  }

  lemma QuietCommit(w: World, e: Entry, meta: Id)
    requires if IsTiff(e.data) then w.ingest.Idle?
             else w.ingest == Rejecting(e.info.remotePath, e.info.filename) && w.pending == NOTHING
    ensures Next(w, EntrySteps(e, meta)[3])
      == if IsTiff(e.data) then w else w.(db := w.db.(events := w.db.events + [Rejection(e)]), ingest := Idle)
  {
    assert EntrySteps(e, meta)[3] == Commit(true);
    if IsTiff(e.data) {
      hide Next;
      Skips(w, Commit(true));
    } else {
      assert w.db.batches + map[] == w.db.batches && w.db.documents + map[] == w.db.documents;
    }
  }

  /** The next step of the ingestion worker: invisible behind the mask, and at the end of a rejected entry one event. */
  lemma QuietStep(w: World, es: seq<Entry>, k: nat, meta: Id)
    requires k < 4 && es != [] && Quiet(w, es, k)
    ensures var n := Next(w, EntrySteps(es[0], meta)[k]);
            && (if k == 3 then Quiet(n, es[1..], 0) else Quiet(n, es, k + 1))
            && (forall log :: Masked(n, log) == Masked(w, log))
            && n.db.events == w.db.events + (if k == 3 && !IsTiff(es[0].data) then [Rejection(es[0])] else [])
  {
    hide Next, SomeRejected, AllHeld, Held, IsTiff, Masked;
    var e := es[0];
    var n := Next(w, EntrySteps(e, meta)[k]);
    FirstAndOthers(es);
    match k {
      case 0 => QuietBegin(w, e, meta);
      case 1 => Skips(w, Upload(Returns));
      case 2 => Skips(w, Enqueue(Returns));
      case 3 => QuietCommit(w, e, meta);
    }
    SameHeld(w, n, es);
  }

  /**
   A run in which the ingestion worker goes over entries that are there already, and inference workers do
   anything in between: they get to where they would have got alone, and the log has one more event for each
   rejected entry, in order.
   */
  lemma {:induction false} SilentRun(w: World, steps: seq<Step>, es: seq<Entry>, k: nat, meta: Id, log: seq<Event>)
    requires k < 4 && (k > 0 ==> es != []) && Quiet(w, es, k) && IngestPart(steps) == Rest(es, k, meta)
    ensures var n, m := Run(w, steps), Run(Masked(w, log), WorkerPart(steps));
            && n.ingest.Idle? && m == Masked(n, m.db.events)
            && Failures(n.db.events) == Failures(w.db.events) + Rejections(es)
            && (Others(w.db.events) == Others(log) ==> Others(n.db.events) == Others(m.db.events))
    decreases |steps|
  {
    hide Next, IsTiff, Masked, Quiet, Rest, EntrySteps, Failures, Others, Rejections;
    NothingLeftIff(es, k, meta);
    if steps == [] {
      QuietEnd(w);
      assert Failures(w.db.events) + [] == Failures(w.db.events);
      SameMask(w, log);
    } else if IsWorkerStep(steps[0]) {
      var n, m := Next(w, steps[0]), Next(Masked(w, log), steps[0]);
      WorkerMasked(w, steps[0], log);
      WorkerLog(w, n, log, m.db.events);
      WorkerQuiet(w, n, es, k);
      assert WorkerPart(steps)[0] == steps[0] && WorkerPart(steps)[1..] == WorkerPart(steps[1..]);
      hide IsWorkerStep, IngestPart, Appends;
      SilentRun(n, steps[1..], es, k, meta, m.db.events);
    } else {
      assert IngestPart(steps)[0] == steps[0] && IngestPart(steps)[1..] == IngestPart(steps[1..]);
      RestAdvances(es, k, meta);
      assert steps[0] == EntrySteps(es[0], meta)[k];
      QuietStep(w, es, k, meta);
      var n := Next(w, steps[0]);
      QuietLog(w, n, es, k);
      assert WorkerPart(steps) == [] + WorkerPart(steps[1..]) == WorkerPart(steps[1..]);
      hide IsWorkerStep, IngestPart;
      if k == 3 {
        SilentRun(n, steps[1..], es[1..], 0, meta, log);
      } else {
        SilentRun(n, steps[1..], es, k + 1, meta, log);
      }
    }
  }

  lemma QuietEnd(w: World)
    ensures (Quiet(w, [], 0) ==> w.ingest.Idle?) && Rejections([]) == []
  {}

  lemma SameMask(w: World, log: seq<Event>)
    ensures Masked(w, Masked(w, log).db.events) == Masked(w, log) && Masked(w, log).db.events == log
  {}

  lemma WorkerLog(w: World, n: World, log: seq<Event>, more: seq<Event>)
    requires Appends(w, n, log, more)
    ensures Failures(n.db.events) == Failures(w.db.events)
    ensures Others(w.db.events) == Others(log) ==> Others(n.db.events) == Others(more)
  {
    hide Failures, Others;
    if n.db.events != w.db.events || more != log {
      var e: Event :| !e.IngestionFailed? && n.db.events == w.db.events + [e] && more == log + [e];
      SplitSnoc(w.db.events, e);
      SplitSnoc(log, e);
    }
  }

  lemma WorkerQuiet(w: World, n: World, es: seq<Entry>, k: nat)
    requires n.ingest == w.ingest && n.pending == w.pending && n.db.documents == w.db.documents && n.hash == w.hash
    ensures Quiet(w, es, k) ==> Quiet(n, es, k)
  {
    assert Visible(n) == Visible(w);
    hide Visible, Duplicates, IsTiff, SomeRejected;
  }

  lemma QuietLog(w: World, n: World, es: seq<Entry>, k: nat)
    requires es != []
    requires n.db.events == w.db.events + (if k == 3 && !IsTiff(es[0].data) then [Rejection(es[0])] else [])
    ensures Others(n.db.events) == Others(w.db.events)
    ensures Failures(n.db.events) + (if k == 3 then Rejections(es[1..]) else Rejections(es))
              == Failures(w.db.events) + Rejections(es)
  {
    RejectionsUnfold(es);
    if k == 3 && !IsTiff(es[0].data) {
      LogRejection(w.db.events, Rejection(es[0]), Rejections(es[1..]));
    } else {
      NothingAdded(w.db.events);
    }
    hide Failures, Others, IsTiff, Rejections;
  }

  lemma RejectionsUnfold(es: seq<Entry>)
    requires es != []
    ensures Rejections(es) == if IsTiff(es[0].data) then Rejections(es[1..])
              else [Rejection(es[0])] + Rejections(es[1..])
  {
    hide IsTiff;
    assert [] + Rejections(es[1..]) == Rejections(es[1..]);
  }

  lemma LogRejection(log: seq<Event>, e: Event, later: seq<Event>)
    requires e.IngestionFailed?
    ensures Others(log + [e]) == Others(log) && Failures(log + [e]) + later == Failures(log) + ([e] + later)
  {
    SplitSnoc(log, e);
    hide Failures, Others;
  }

  lemma NothingAdded(log: seq<Event>)
    ensures log + [] == log
  {}

  /** `n` times the same events. */
  function Copies(events: seq<Event>, n: nat): seq<Event> {
    if n == 0 then [] else events + Copies(events, n - 1)
  }

  lemma {:induction false} RejectionsConcat(a: seq<Entry>, b: seq<Entry>)
    ensures Rejections(a + b) == Rejections(a) + Rejections(b)
  {
    hide IsTiff;
    if a == [] {
      assert a + b == b;
    } else {
      assert (a + b)[1..] == a[1..] + b;
      RejectionsConcat(a[1..], b);
    }
  }

  lemma {:induction false} RejectionsOfPolls(dir: seq<Entry>, n: nat)
    requires DistinctEntries(dir)
    ensures Rejections(Polled(ListingMap(Infos(dir)), dir, n)) == Copies(Rejections(dir), n)
    decreases n
  {
    hide ListingMap, Infos, StableEntries, DistinctEntries, Rejections;
    if n == 0 {
      NoRejections();
    } else {
      PolledAgain(dir, n);
      RejectionsOfPolls(dir, n - 1);
      RejectionsConcat(dir, Polled(ListingMap(Infos(dir)), dir, n - 1));
    }
  }

  lemma NoRejections()
    ensures Rejections([]) == []
  {}
}
