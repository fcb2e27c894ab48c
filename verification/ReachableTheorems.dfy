/**
 Results about the future of any reachable state: `before` leads to it from an empty system, `after` is what follows.
 */
module ReachableTheorems {
  import opened Common
  import opened Store
  import opened Protocol
  import opened ProtocolInvariant
  import opened ProtocolFrames
  import opened ProtocolPreservation
  import opened ProtocolTheorems
  import opened ProtocolProgress
  import opened ProtocolLimits
  import opened Traces
  import opened Stability
  import opened Worker
  import opened Polling
  import opened Convergence
  import opened Silence

  /** A settled job never changes again. */
  lemma SettledJobsNeverChange(hash: Bytes -> string, before: seq<Step>, after: seq<Step>, j: Id)
    requires j in Run(Start(hash), before).db.jobs && Settled(Run(Start(hash), before).db.jobs[j].status)
    ensures j in Run(Start(hash), before + after).db.jobs
    ensures Run(Start(hash), before + after).db.jobs[j] == Run(Start(hash), before).db.jobs[j]
  {
    hide Inv;
    Reachable(hash, before);
    RunConcat(Start(hash), before, after);
    SettledForever(Run(Start(hash), before), after, j);
  }

  /**
   Once a job row is committed and its message, still waiting then, has been delivered and let go of
   again, the job is settled: whatever else happens in between, unless a worker dies holding the message.
   */
  lemma DeliveredJobsAreSettled(hash: Bytes -> string, before: seq<Step>, after: seq<Step>, i: nat, j: Id)
    requires var w := Run(Start(hash), before);
             && i < |w.messages| && w.messages[i].state.Waiting?
             && j in w.db.jobs && w.db.jobs[j].documentId == w.messages[i].documentId
    requires Crash(i) !in after && Deliveries(Run(Start(hash), before), after, i) > 0
    ensures var n := Run(Start(hash), before + after);
            && i < |n.messages| && j in n.db.jobs && (!InFlight(n.messages[i]) ==> Settled(n.db.jobs[j].status))
  {
    hide Inv, Deliveries;
    Reachable(hash, before);
    RunConcat(Start(hash), before, after);
    FirstDeliverySettles(Run(Start(hash), before), after, i, j);
  }

  /** A delivery of an unsettled job with nobody in between settles it, as succeeded exactly when nothing failed. */
  lemma DeliverySettles(hash: Bytes -> string, before: seq<Step>, i: nat, j: Id, f: DeliveryFaults)
    requires var w := Run(Start(hash), before);
             && i < |w.messages| && w.messages[i].state.Waiting?
             && j in w.db.jobs && w.db.jobs[j].documentId == w.messages[i].documentId && !Settled(w.db.jobs[j].status)
    ensures var n := Run(Start(hash), before + DeliveryTrace(i, f));
            && j in n.db.jobs && i < |n.messages| && !InFlight(n.messages[i])
            && n.db.jobs[j].status
               == if f.result.Some? && f.overlay.Returns? && f.commits then JobSucceeded else JobRetryableFailed
  {
    Reachable(hash, before);
    var w := Run(Start(hash), before);
    assert JobsOk(w.db.jobs, w.db.documents);
    hide Inv, JobsOk, Run, DeliveryTrace;
    TheActiveJob(w, j);
    RunConcat(Start(hash), before, DeliveryTrace(i, f));
    UndisturbedDelivery(w, i, j, f);
  }

  /** A job that failed once, or whose message is used up, is classified in no future. */
  lemma FailedJobsNeverSucceed(hash: Bytes -> string, before: seq<Step>, after: seq<Step>, j: Id)
    requires var w := Run(Start(hash), before);
             && j in w.db.jobs && !w.db.jobs[j].status.JobSucceeded? && w.db.jobs[j].rqJobId < |w.messages|
             && (w.db.jobs[j].status.JobRetryableFailed? || Lost(w.messages[w.db.jobs[j].rqJobId]))
    ensures var n := Run(Start(hash), before + after);
            j in n.db.jobs && !n.db.jobs[j].status.JobSucceeded? && PredictionsOf(n.db, n.db.jobs[j].documentId) == {}
  {
    Reachable(hash, before);
    MessageOfJob(hash, before);
    var w := Run(Start(hash), before);
    assert Doomed(w, w.db.jobs[j].rqJobId, j);
    hide Inv, Run;
    RunConcat(Start(hash), before, after);
    DoomedForever(w, after, w.db.jobs[j].rqJobId, j);
    SucceededIffClassified(hash, before + after);
  }

  /**
   A document whose ingestion stopped half-way is in the open session. As long as its path is not ingested
   again, no document in sight has its path and content, and the next duplicate check finds nothing, if and
   only if the session was closed or rolled back before any commit.
   */
  lemma HalfIngestedIsRetriedIff(hash: Bytes -> string, before: seq<Step>, after: seq<Step>, d: Id)
    requires d in Run(Start(hash), before).pending.documents
    requires forall s :: s in after
               ==> !(s.Begin? && s.path == Run(Start(hash), before).pending.documents[d].sourcePath)
    ensures var w := Run(Start(hash), before);
            var doc := w.pending.documents[d];
            var n := Run(Start(hash), before + after);
            && (FateOf(w, after) == Dropped <==> DocumentsAt(Visible(n), doc.checksum, doc.sourcePath) == {})
            && Duplicates(Visible(n), doc.checksum, doc.sourcePath)
               == DocumentsAt(Visible(n), doc.checksum, doc.sourcePath)
  {
    var w := Run(Start(hash), before);
    var doc := w.pending.documents[d];
    Reachable(hash, before);
    hide Inv, FateOf, Run;
    RunConcat(Start(hash), before, after);
    assert Has(w.pending.documents, d, doc.checksum, doc.sourcePath);
    RetriedIffDropped(w, after, d, doc.checksum, doc.sourcePath);
    Reachable(hash, before + after);
    DuplicatesAreAll(Run(Start(hash), before + after), doc.checksum, doc.sourcePath);
  }

  /**
   A delivery leaves the tables as they were if and only if every job of its document is settled, or there is
   none yet because the ingestion has not committed; then it leaves everything as it was but its own message.
   */
  lemma DeliveryIsIdleIff(hash: Bytes -> string, before: seq<Step>, i: nat, f: DeliveryFaults)
    requires var w := Run(Start(hash), before); i < |w.messages| && w.messages[i].state.Waiting?
    ensures var w, n := Run(Start(hash), before), Run(Start(hash), before + DeliveryTrace(i, f));
            && (n.db == w.db
                <==> forall j :: j in JobsOf(w.db, w.messages[i].documentId) ==> Settled(w.db.jobs[j].status))
            && (n.db == w.db ==> n == Put(w, i, Requeue(w.messages[i])))
  {
    hide Inv, Run, DeliveryTrace;
    var w := Run(Start(hash), before);
    var d := w.messages[i].documentId;
    RunConcat(Start(hash), before, DeliveryTrace(i, f));
    if forall j :: j in JobsOf(w.db, d) ==> Settled(w.db.jobs[j].status) {
      assert ActiveJobs(w.db, d) == {} by {
        forall j ensures j !in ActiveJobs(w.db, d) {
          assert j in JobsOf(w.db, d) ==> Settled(w.db.jobs[j].status);
        }
      }
      DeliveryOfNothing(w, i, f);
    } else {
      var j :| j in JobsOf(w.db, d) && !Settled(w.db.jobs[j].status);
      DeliverySettles(hash, before, i, j, f);
    }
  }

  /**
   Draining the queue, in any order and as far as it goes, without a crash: the jobs settled then are those settled
   before and those whose message was not used up. `DrainExists` and `DrainTerminates` say that it can be drained,
   and that every way of draining it ends.
   */
  lemma DrainedJobsAreSettled(hash: Bytes -> string, before: seq<Step>, after: seq<Step>, j: Id)
    requires Calm(after) && AllSpent(Run(Start(hash), before + after))
    requires j in Run(Start(hash), before + after).db.jobs
    ensures var w, n := Run(Start(hash), before), Run(Start(hash), before + after);
            && j in w.db.jobs && w.db.jobs[j].rqJobId < |w.messages|
            && (Settled(n.db.jobs[j].status)
                <==> Settled(w.db.jobs[j].status) || !Spent(w.messages[w.db.jobs[j].rqJobId]))
  {
    hide Inv, JobHasMessage, PersistedOk, AllSpent, Calm, Run, Settled, Spent;
    var w := Run(Start(hash), before);
    Reachable(hash, before);
    MessageOfJob(hash, before);
    RunConcat(Start(hash), before, after);
    JobsKept(w, after);
    var i := RqMessage(w, j);
    if !Spent(w.messages[i]) {
      OnTrackIfNotSpent(w, i, j);
      NoCrashIn(after, i);
      StaysOnTrack(w, after, i, j, w.messages[i].retriesLeft);
      SpentOnTrack(Run(w, after), i, j, w.messages[i].retriesLeft);
    } else {
      SpentForever(w, after, i, j);
    }
  }

  lemma RqMessage(w: World, j: Id) returns (i: nat)
    requires JobHasMessage(w) && j in w.db.jobs
    ensures i == w.db.jobs[j].rqJobId && i < |w.messages| && w.messages[i].documentId == w.db.jobs[j].documentId
  {
    i := w.db.jobs[j].rqJobId;
  }

  lemma OnTrackIfNotSpent(w: World, i: nat, j: Id)
    requires Inv(w) && PersistedOk(w) && j in w.db.jobs && i < |w.messages|
    requires w.messages[i].documentId == w.db.jobs[j].documentId && !Spent(w.messages[i])
    ensures OnTrack(w, i, j, w.messages[i].retriesLeft)
  {
    PartsOf(w, i);
    hide Inv;
  }

  lemma NoCrashIn(steps: seq<Step>, i: nat)
    requires Calm(steps)
    ensures Crash(i) !in steps
  {}

  lemma SpentOnTrack(w: World, i: nat, j: Id, retries: nat)
    requires OnTrack(w, i, j, retries) && AllSpent(w)
    ensures Settled(w.db.jobs[j].status)
  {
    assert Spent(w.messages[i]);
  }

  /** Inference workers add no job and take none away. */
  lemma {:induction false} JobsKept(w: World, steps: seq<Step>)
    requires Calm(steps)
    ensures Run(w, steps).db.jobs.Keys == w.db.jobs.Keys
    decreases |steps|
  {
    hide Next, Enabled;
    if steps != [] {
      Frames(w, steps[0]);
      JobsKept(Next(w, steps[0]), steps[1..]);
    }
  }

  // ---- a job at work is marked ----

  /** The worker has committed `running` for the job it holds. */
  predicate PastStart(m: Message) {
    m.state.Running? || m.state.Computed? || m.state.Saved? || m.state.Failing?
  }

  predicate Marked(m: Message, jobs: map<Id, Job>) {
    PastStart(m) ==> m.state.jobId in jobs && jobs[m.state.jobId].status.JobRunning?
  }

  ghost predicate AllMarked(w: World) {
    forall i :: 0 <= i < |w.messages| ==> Marked(w.messages[i], w.db.jobs)
  }

  lemma OwnMarked(w: World, s: Step)
    requires IsWorkerStep(s) && Enabled(w, s) && s.message < |w.messages| && Marked(w.messages[s.message], w.db.jobs)
    ensures s.message < |Next(w, s).messages| && Marked(Next(w, s).messages[s.message], Next(w, s).db.jobs)
  {
    hide ActiveJobs, NewPrediction;
  }

  lemma MarkedStep(w: World, s: Step, i: nat)
    requires AllMarked(w) && MessagesOk(w) && Below(w.db.jobs.Keys, w.nextId) && i < |Next(w, s).messages|
    ensures Marked(Next(w, s).messages[i], Next(w, s).db.jobs)
  {
    hide Next, Enabled, Below;
    if i >= |w.messages| {
      NewMessageWaits(w, s, i);
    } else if IsWorkerStep(s) && Enabled(w, s) && s.message == i {
      OwnMarked(w, s);
    } else {
      MessagesStep(w, s, i);
      assert Marked(w.messages[i], w.db.jobs) && MessageOk(w.messages[i], w);
      if PastStart(w.messages[i]) {
        JobsStep(w, s, w.messages[i].state.jobId);
        if IsWorkerStep(s) && s.message < |w.messages| && s.message != i {
          assert MessageOk(w.messages[s.message], w);
          assert w.messages[s.message].documentId != w.messages[i].documentId;
        }
      }
    }
  }

  /** In every reachable state, the job of a worker that computes, saves or fails is `running` in the tables. */
  lemma {:induction false} WorkingJobsAreMarked(hash: Bytes -> string, steps: seq<Step>)
    ensures AllMarked(Run(Start(hash), steps))
    decreases |steps|
  {
    hide Next, Inv, MessagesOk, Below;
    if steps != [] {
      var front, s := steps[..|steps| - 1], steps[|steps| - 1];
      assert steps == front + [s];
      WorkingJobsAreMarked(hash, front);
      RunSnoc(Start(hash), front, s);
      Reachable(hash, front);
      var w := Run(Start(hash), front);
      MessagesAndKeys(w);
      forall i | 0 <= i < |Next(w, s).messages| ensures Marked(Next(w, s).messages[i], Next(w, s).db.jobs) {
        MarkedStep(w, s, i);
      }
    }
  }

  // ---- polling a directory that does not change ----

  /**
   From any state between two files, on one connection: two or more rounds of the inner loop over the same
   directory, without faults, with inference workers doing anything in between. Every TIFF then has exactly one
   document; and unless the session already held a half-ingested one, closing it loses nothing.
   */
  lemma PollingConverges(hash: Bytes -> string, before: seq<Step>, seen: map<string, Stat>, rounds: seq<Round>,
                         dir: seq<Entry>, meta: Id, polls: seq<Step>)
    requires Run(Start(hash), before).ingest.Idle? && DistinctEntries(dir) && QuietRounds(seen, rounds, dir)
    requires |rounds| >= 2
    requires IngestPart(polls) + [CloseSession] == RoundsSteps(seen, rounds, meta)
    ensures var w, n := Run(Start(hash), before), Run(Start(hash), before + polls);
            && n.ingest.Idle?
            && (forall k :: 0 <= k < |dir| && IsTiff(dir[k].data) ==>
                  ExactlyOne(DocumentsAt(Visible(n), hash(dir[k].data), dir[k].info.remotePath)))
            && (w.pending == NOTHING || SomeRejected(dir) ==> n.pending == NOTHING)
  {
    hide Inv, Run, QuietRounds, RoundsSteps, IngestPart, EntriesSteps, DistinctEntries, Polled, IsTiff, Held,
      SomeRejected, Rest;
    var w, n := Run(Start(hash), before), Run(Start(hash), before + polls);
    PollsBringAll(hash, before, seen, rounds, dir, meta, polls);
    forall k | 0 <= k < |dir| && IsTiff(dir[k].data)
      ensures ExactlyOne(DocumentsAt(Visible(n), hash(dir[k].data), dir[k].info.remotePath))
    {
      OneDocument(n, dir[k]);
    }
  }

  lemma PollsBringAll(hash: Bytes -> string, before: seq<Step>, seen: map<string, Stat>, rounds: seq<Round>,
                         dir: seq<Entry>, meta: Id, polls: seq<Step>)
    requires Run(Start(hash), before).ingest.Idle? && DistinctEntries(dir) && QuietRounds(seen, rounds, dir)
    requires |rounds| >= 2
    requires IngestPart(polls) + [CloseSession] == RoundsSteps(seen, rounds, meta)
    ensures var w, n := Run(Start(hash), before), Run(Start(hash), before + polls);
            && Inv(n) && n.hash == hash && n.ingest.Idle? && AllHeld(n, dir)
            && (w.pending == NOTHING || SomeRejected(dir) ==> n.pending == NOTHING)
  {
    hide Inv, Run, QuietRounds, RoundsSteps, IngestPart, EntriesSteps, DistinctEntries, Polled, AllHeld, Held,
      SomeRejected, Rest;
    Reachable(hash, before);
    var w := Run(Start(hash), before);
    var es := Polled(seen, dir, |rounds|);
    PollsAreEntries(seen, rounds, dir, meta, polls);
    WholeRest(es, meta);
    RunConcat(Start(hash), before, polls);
    Interleaved(w, polls, es, 0, meta);
    PolledHasAll(seen, dir, |rounds|);
    AllHeldFor(Run(w, polls), es, dir);
    HashOfRun(hash, before);
  }

  lemma {:induction false} HashOfRun(hash: Bytes -> string, steps: seq<Step>)
    ensures Run(Start(hash), steps).hash == hash
  {
    if steps != [] {
      var front := steps[..|steps| - 1];
      assert steps == front + [steps[|steps| - 1]];
      hide Next;
      HashOfRun(hash, front);
      RunSnoc(Start(hash), front, steps[|steps| - 1]);
      HashStays(Run(Start(hash), front), steps[|steps| - 1]);
    }
  }

  /**
   Every later round on the connection is silent: the inference workers get to the very state they would have
   reached without it, and the log has one more event for each file that is no TIFF, in order.
   */
  lemma PollingSettles(hash: Bytes -> string, before: seq<Step>, seen: map<string, Stat>, rounds: seq<Round>,
                       later: seq<Round>, dir: seq<Entry>, meta: Id, polls: seq<Step>, more: seq<Step>)
    requires Run(Start(hash), before).ingest.Idle? && DistinctEntries(dir) && |rounds| >= 2
    requires QuietRounds(seen, rounds + later, dir)
    requires IngestPart(polls) + [CloseSession] == RoundsSteps(seen, rounds, meta)
    requires IngestPart(polls + more) + [CloseSession] == RoundsSteps(seen, rounds + later, meta)
    ensures var c := Run(Start(hash), before + polls);
            var n, m := Run(c, more), Run(c, WorkerPart(more));
            && m == n.(db := n.db.(events := m.db.events))
            && Failures(n.db.events) == Failures(c.db.events) + Copies(Rejections(dir), |later|)
            && Others(n.db.events) == Others(m.db.events)
  {
    hide Inv, Run, QuietRounds, RoundsSteps, IngestPart, WorkerPart, EntriesSteps, DistinctEntries, Polled, AllHeld,
      SomeRejected, Rest, ListingMap, Infos, Rejections, Failures, Others, Copies;
    QuietPrefix(seen, rounds, later, dir);
    PollsBringAll(hash, before, seen, rounds, dir, meta, polls);
    var c := Run(Start(hash), before + polls);
    var es := Polled(ListingMap(Infos(dir)), dir, |later|);
    LaterPollsAreEntries(seen, rounds, later, dir, meta, polls, more);
    WholeRest(es, meta);
    PolledFromDir(dir, |later|);
    AllHeldFor(c, dir, es);
    RejectionsOfPolls(dir, |later|);
    assert Quiet(c, es, 0);
    assert Masked(c, c.db.events) == c;
    SilentRun(c, more, es, 0, meta, c.db.events);
  }
}
