/** How runs of the pipeline move: retries run out, jobs settle once and for all, some never do. */
module ProtocolProgress {
  import opened Common
  import opened Store
  import opened Protocol
  import opened ProtocolInvariant
  import opened ProtocolFrames
  import opened ProtocolPreservation

  // ---- a settled job never changes again ----

  lemma {:induction false} SettledForever(w: World, steps: seq<Step>, j: Id)
    requires Inv(w) && j in w.db.jobs && Settled(w.db.jobs[j].status)
    ensures j in Run(w, steps).db.jobs && Run(w, steps).db.jobs[j] == w.db.jobs[j]
    decreases |steps|
  {
    if steps != [] {
      assert MessagesOk(w) && Below(w.db.jobs.Keys, w.nextId);
      hide Inv, MessagesOk, Below;
      SettledStep(w, steps[0], j);
      StepKeeps(w, steps[0]);
      SettledForever(Next(w, steps[0]), steps[1..], j);
    }
  }

  lemma SettledStep(w: World, s: Step, j: Id)
    requires MessagesOk(w) && Below(w.db.jobs.Keys, w.nextId) && j in w.db.jobs && Settled(w.db.jobs[j].status)
    ensures j in Next(w, s).db.jobs && Next(w, s).db.jobs[j] == w.db.jobs[j]
  {
    hide Next, Below;
    JobsStep(w, s, j);
    if IsWorkerStep(s) && s.message < |w.messages| {
      assert MessageOk(w.messages[s.message], w);
    }
  }

  /** The first attempt is the only one the row ever records. */
  lemma {:induction false} AttemptsStayOne(hash: Bytes -> string, steps: seq<Step>)
    ensures forall j :: j in Run(Start(hash), steps).db.jobs ==> Run(Start(hash), steps).db.jobs[j].attemptCount == 1
    decreases |steps|
  {
    if steps != [] {
      var front, s := steps[..|steps| - 1], steps[|steps| - 1];
      assert steps == front + [s];
      AttemptsStayOne(hash, front);
      RunSnoc(Start(hash), front, s);
      AttemptsStep(Run(Start(hash), front), s);
    }
  }

  lemma AttemptsStep(w: World, s: Step)
    requires forall j :: j in w.db.jobs ==> w.db.jobs[j].attemptCount == 1
    ensures forall j :: j in Next(w, s).db.jobs ==> Next(w, s).db.jobs[j].attemptCount == 1
  {
    hide Next, Enabled, CommitIngest;
    Frames(w, s);
  }

  // ---- at most four deliveries ----

  function Budget(w: World, i: nat): nat {
    if i >= |w.messages| then MAX_RETRIES + 1
    else match w.messages[i].state
      case Waiting => w.messages[i].retriesLeft + 1
      case Finished => 0
      case Dead => 0
      case _ => w.messages[i].retriesLeft
  }

  ghost function Deliveries(w: World, steps: seq<Step>, i: nat): nat
    decreases |steps|
  {
    if steps == [] then 0
    else
      var now := if steps[0] == Deliver(i) && Enabled(w, steps[0]) then 1 else 0;
      now + Deliveries(Next(w, steps[0]), steps[1..], i)
  }

  lemma {:induction false} DeliveriesSpendBudget(w: World, steps: seq<Step>, i: nat)
    ensures Deliveries(w, steps, i) + Budget(Run(w, steps), i) <= Budget(w, i)
    decreases |steps|
  {
    if steps != [] {
      BudgetStep(w, steps[0], i);
      DeliveriesSpendBudget(Next(w, steps[0]), steps[1..], i);
    }
  }

  lemma BudgetStep(w: World, s: Step, i: nat)
    ensures Budget(Next(w, s), i) + (if s == Deliver(i) && Enabled(w, s) then 1 else 0) <= Budget(w, i)
  {
    hide Next, Enabled;
    if i < |w.messages| {
      MessagesStep(w, s, i);
      if IsWorkerStep(s) && s.message == i && Enabled(w, s) { OwnBudget(w, s); }
    } else if i < |Next(w, s).messages| {
      NewMessage(w, s, i);
    }
    if s == Deliver(i) && Enabled(w, s) { DeliveredMessageWaits(w, i); }
  }

  lemma DeliveredMessageWaits(w: World, i: nat)
    requires Enabled(w, Deliver(i))
    ensures i < |w.messages| && w.messages[i].state.Waiting?
  {}

  lemma NewMessage(w: World, s: Step, i: nat)
    requires |w.messages| <= i < |Next(w, s).messages|
    ensures Next(w, s).messages[i].state.Waiting? && Next(w, s).messages[i].retriesLeft == MAX_RETRIES
  {
    hide Next, Enabled, CommitIngest, JobFrame;
    Frames(w, s);
  }

  lemma OwnBudget(w: World, s: Step)
    requires IsWorkerStep(s) && Enabled(w, s) && s.message < |w.messages|
    ensures Budget(Next(w, s), s.message) + (if s.Deliver? then 1 else 0) <= Budget(w, s.message)
  {
    hide Next, Enabled, JobFrame;
    Frames(w, s);
    if s.Deliver? {
      DeliveredMessageWaits(w, s.message);
      NotFinished(w, s.message);
    }
  }

  lemma NotFinished(w: World, i: nat)
    requires Enabled(w, Deliver(i))
    ensures i < |Next(w, Deliver(i)).messages|
    ensures Next(w, Deliver(i)).messages[i] == Requeue(w.messages[i]) || Next(w, Deliver(i)).messages[i].state.Found?
  {
    hide ActiveJobs;
  }

  /** Each delivery costs one attempt and nothing else does, as long as the message is not finished. */
  lemma {:induction false} DeliveriesAreTheBudget(w: World, steps: seq<Step>, i: nat)
    requires i < |Run(w, steps).messages| ==> !Run(w, steps).messages[i].state.Finished?
    ensures Deliveries(w, steps, i) + Budget(Run(w, steps), i) == Budget(w, i)
    decreases |steps|
  {
    hide Next, Enabled, Budget;
    if steps != [] {
      DeliveriesAreTheBudget(Next(w, steps[0]), steps[1..], i);
      if i < |w.messages| && w.messages[i].state.Finished? { FinishedForever(w, steps, i); }
      if i < |Next(w, steps[0]).messages| && Next(w, steps[0]).messages[i].state.Finished? {
        FinishedForever(Next(w, steps[0]), steps[1..], i);
      }
      BudgetStepIsExact(w, steps[0], i);
    }
  }

  lemma {:induction false} FinishedForever(w: World, steps: seq<Step>, i: nat)
    requires i < |w.messages| && w.messages[i].state.Finished?
    ensures i < |Run(w, steps).messages| && Run(w, steps).messages[i].state.Finished?
    decreases |steps|
  {
    hide Next, Enabled;
    if steps != [] {
      MessagesStep(w, steps[0], i);
      if IsWorkerStep(steps[0]) && steps[0].message == i { SpentIsDone(w, steps[0], i); }
      FinishedForever(Next(w, steps[0]), steps[1..], i);
    }
  }

  lemma BudgetStepIsExact(w: World, s: Step, i: nat)
    requires i < |Next(w, s).messages| ==> !Next(w, s).messages[i].state.Finished?
    ensures Budget(Next(w, s), i) + (if s == Deliver(i) && Enabled(w, s) then 1 else 0) == Budget(w, i)
  {
    hide Next, Enabled;
    if i < |w.messages| {
      MessagesStep(w, s, i);
      if IsWorkerStep(s) && s.message == i && Enabled(w, s) { OwnBudgetIsExact(w, s); }
    } else if i < |Next(w, s).messages| {
      NewMessage(w, s, i);
    }
    if s == Deliver(i) && Enabled(w, s) { DeliveredMessageWaits(w, i); }
  }

  lemma OwnBudgetIsExact(w: World, s: Step)
    requires IsWorkerStep(s) && Enabled(w, s) && s.message < |w.messages| && s.message < |Next(w, s).messages|
    requires !Next(w, s).messages[s.message].state.Finished?
    ensures Budget(Next(w, s), s.message) + (if s.Deliver? then 1 else 0) == Budget(w, s.message)
  {
    hide Next, Enabled, JobFrame;
    Frames(w, s);
    if s.Deliver? {
      DeliveredMessageWaits(w, s.message);
      NotFinished(w, s.message);
    } else {
      OnlyDeliveriesWait(w, s);
    }
  }

  lemma OnlyDeliveriesWait(w: World, s: Step)
    requires IsWorkerStep(s) && Enabled(w, s) && !s.Deliver?
    ensures s.message < |w.messages| && InFlight(w.messages[s.message])
  {}

  /**
   The whole retry budget is spent before RQ gives a message up: one that is dead was delivered four times, and one
   with fewer deliveries that is not finished is waiting for the next, or with a worker.
   */
  lemma DeadAfterFour(hash: Bytes -> string, steps: seq<Step>, i: nat)
    requires i < |Run(Start(hash), steps).messages|
    ensures var m := Run(Start(hash), steps).messages[i];
            && (m.state.Dead? ==> Deliveries(Start(hash), steps, i) == 4)
            && (Deliveries(Start(hash), steps, i) < 4 && !m.state.Finished? ==> m.state.Waiting? || InFlight(m))
  {
    hide Run, Deliveries;
    if !Run(Start(hash), steps).messages[i].state.Finished? {
      DeliveriesAreTheBudget(Start(hash), steps, i);
    }
  }

  /** Whatever happens, a message is delivered at most four times. */
  lemma AtMostFourDeliveries(hash: Bytes -> string, steps: seq<Step>, i: nat)
    ensures Deliveries(Start(hash), steps, i) <= 4
  {
    DeliveriesSpendBudget(Start(hash), steps, i);
  }

  // ---- draining the queue terminates ----

  function Fuel(m: Message): nat {
    match m.state
    case Waiting => 8 * m.retriesLeft + 8
    case Found(_) => 8 * m.retriesLeft + 6
    case Running(_) => 8 * m.retriesLeft + 5
    case Computed(_, _) => 8 * m.retriesLeft + 4
    case Saved(_, _) => 8 * m.retriesLeft + 3
    case Failing(_, _) => 8 * m.retriesLeft + 2
    case Persisted => 8 * m.retriesLeft + 1
    case Finished => 0
    case Dead => 0
  }

  function TotalFuel(messages: seq<Message>): nat {
    if messages == [] then 0 else Fuel(messages[0]) + TotalFuel(messages[1..])
  }

  lemma {:induction false} FuelUpdate(messages: seq<Message>, i: nat, m: Message)
    requires i < |messages|
    ensures TotalFuel(messages[i := m]) + Fuel(messages[i]) == TotalFuel(messages) + Fuel(m)
  {
    if i == 0 {
      assert messages[0 := m][1..] == messages[1..];
    } else {
      FuelUpdate(messages[1..], i - 1, m);
      assert messages[i := m][1..] == messages[1..][i - 1 := m];
    }
  }

  lemma WorkerStepBurnsFuel(w: World, s: Step)
    requires IsWorkerStep(s) && Enabled(w, s)
    ensures TotalFuel(Next(w, s).messages) < TotalFuel(w.messages)
  {
    var i := s.message;
    assert Next(w, s).messages == w.messages[i := Next(w, s).messages[i]];
    FuelUpdate(w.messages, i, Next(w, s).messages[i]);
    FuelStep(w, s);
  }

  lemma FuelStep(w: World, s: Step)
    requires IsWorkerStep(s) && Enabled(w, s)
    ensures Fuel(Next(w, s).messages[s.message]) < Fuel(w.messages[s.message])
  {
    hide Next, Enabled, JobFrame;
    Frames(w, s);
  }

  ghost function Effective(w: World, steps: seq<Step>): nat
    decreases |steps|
  {
    if steps == [] then 0
    else (if Enabled(w, steps[0]) then 1 else 0) + Effective(Next(w, steps[0]), steps[1..])
  }

  /** Workers alone can take at most `TotalFuel` steps, however they interleave, fail and crash. */
  lemma {:induction false} DrainTerminates(w: World, steps: seq<Step>)
    requires forall k :: 0 <= k < |steps| ==> IsWorkerStep(steps[k])
    ensures Effective(w, steps) + TotalFuel(Run(w, steps).messages) <= TotalFuel(w.messages)
    decreases |steps|
  {
    if steps != [] {
      if Enabled(w, steps[0]) { WorkerStepBurnsFuel(w, steps[0]); }
      DrainTerminates(Next(w, steps[0]), steps[1..]);
    }
  }

  predicate Spent(m: Message) {
    m.state.Finished? || m.state.Dead?
  }

  /** The step the holder of a message takes next when nothing goes wrong, or the next delivery. */
  function NextOf(m: Message, i: nat): Step {
    match m.state
    case Found(_) => MarkRunning(i)
    case Running(_) => Compute(i, None)
    case Computed(_, _) => SaveOverlay(i, Returns)
    case Saved(_, _) => Persist(i, true)
    case Failing(_, _) => RecordFailure(i)
    case Persisted => Acknowledge(i)
    case _ => Deliver(i)
  }

  predicate AllSpent(w: World) {
    forall i :: 0 <= i < |w.messages| ==> Spent(w.messages[i])
  }

  /**
   Workers have nothing left to do, and need no crash to get there, exactly when every message is finished or dead.
   */
  lemma NoDeadlock(w: World)
    ensures AllSpent(w) <==> forall s :: IsWorkerStep(s) ==> !Enabled(w, s)
    ensures AllSpent(w) <==> forall s :: IsWorkerStep(s) && !s.Crash? ==> !Enabled(w, s)
  {
    if !AllSpent(w) {
      var i :| 0 <= i < |w.messages| && !Spent(w.messages[i]);
      assert Enabled(w, NextOf(w.messages[i], i));
    }
  }

  ghost predicate Calm(steps: seq<Step>) {
    forall k :: 0 <= k < |steps| ==> IsWorkerStep(steps[k]) && !steps[k].Crash?
  }

  /** From any state the workers can drain the queue without a crash; `DrainTerminates` bounds every way of doing it. */
  lemma {:induction false} DrainExists(w: World) returns (steps: seq<Step>)
    ensures Calm(steps) && AllSpent(Run(w, steps))
    decreases TotalFuel(w.messages)
  {
    hide Next, Enabled, TotalFuel;
    if AllSpent(w) {
      steps := [];
    } else {
      NoDeadlock(w);
      var s :| IsWorkerStep(s) && !s.Crash? && Enabled(w, s);
      WorkerStepBurnsFuel(w, s);
      var rest := DrainExists(Next(w, s));
      steps := [s] + rest;
      assert steps[0] == s && steps[1..] == rest;
    }
  }

  lemma SpentIsDone(w: World, s: Step, i: nat)
    requires i < |w.messages| && Spent(w.messages[i]) && IsWorkerStep(s) && s.message == i
    ensures !Enabled(w, s)
  {}

  /** A spent message stays as it is, and so does the job it was for. */
  lemma SpentStep(w: World, s: Step, i: nat, j: Id)
    requires MessagesOk(w) && Below(w.db.jobs.Keys, w.nextId) && IsWorkerStep(s)
    requires i < |w.messages| && Spent(w.messages[i]) && j in w.db.jobs
    requires w.db.jobs[j].documentId == w.messages[i].documentId
    ensures var n := Next(w, s);
            j in n.db.jobs && n.db.jobs[j] == w.db.jobs[j] && i < |n.messages| && n.messages[i] == w.messages[i]
  {
    hide Next, Enabled, Below, Spent;
    JobsStep(w, s, j);
    MessagesStep(w, s, i);
    if s.message == i {
      SpentIsDone(w, s, i);
    } else if s.message < |w.messages| {
      assert MessageOk(w.messages[s.message], w);
      assert w.messages[s.message].documentId != w.messages[i].documentId;
    }
  }

  lemma MessagesAndKeys(w: World)
    requires Inv(w)
    ensures MessagesOk(w) && Below(w.db.jobs.Keys, w.nextId)
  {
    assert KeysOk(w);
    hide MessagesOk, Below;
  }

  lemma {:induction false} SpentForever(w: World, steps: seq<Step>, i: nat, j: Id)
    requires Inv(w) && Calm(steps)
    requires i < |w.messages| && Spent(w.messages[i]) && j in w.db.jobs
    requires w.db.jobs[j].documentId == w.messages[i].documentId
    ensures j in Run(w, steps).db.jobs && Run(w, steps).db.jobs[j] == w.db.jobs[j]
    decreases |steps|
  {
    hide Next, Spent, MessagesOk, Below, Inv;
    if steps != [] {
      MessagesAndKeys(w);
      SpentStep(w, steps[0], i, j);
      StepKeeps(w, steps[0]);
      SpentForever(Next(w, steps[0]), steps[1..], i, j);
    }
  }

  // ---- one delivery settles the job ----

  /** A delivery that finds no active job writes nothing and costs the message one attempt. */
  lemma IdleDelivery(w: World, i: nat)
    requires Enabled(w, Deliver(i)) && ActiveJobs(w.db, w.messages[i].documentId) == {}
    ensures Next(w, Deliver(i)) == Put(w, i, Requeue(w.messages[i]))
    ensures Next(w, Deliver(i)).db == w.db && Budget(Next(w, Deliver(i)), i) == Budget(w, i) - 1
  {}

  /** Not delivered since `retries` was read, or held by a worker, or settled. */
  ghost predicate OnTrack(w: World, i: nat, j: Id, retries: nat) {
    && i < |w.messages| && j in w.db.jobs && w.db.jobs[j].documentId == w.messages[i].documentId
    && (Settled(w.db.jobs[j].status)
        || (w.messages[i].state.Waiting? && w.messages[i].retriesLeft == retries)
        || (HoldsJob(w.messages[i]) && w.messages[i].state.jobId == j))
  }

  lemma OnTrackStep(w: World, s: Step, i: nat, j: Id, retries: nat)
    requires MessagesOk(w) && JobsOk(w.db.jobs, w.db.documents) && Below(w.db.jobs.Keys, w.nextId)
    requires OnTrack(w, i, j, retries) && s != Crash(i)
    ensures OnTrack(Next(w, s), i, j, retries)
  {
    hide Next, Enabled, Below, MessagesOk, JobsOk;
    MessagesStep(w, s, i);
    if Settled(w.db.jobs[j].status) {
      SettledStep(w, s, j);
    } else {
      JobsStep(w, s, j);
      TheActiveJob(w, j);
      if IsWorkerStep(s) && Enabled(w, s) && s.message == i { OwnTrack(w, s, i, j); }
    }
  }

  lemma OwnTrack(w: World, s: Step, i: nat, j: Id)
    requires IsWorkerStep(s) && Enabled(w, s) && s.message == i && !s.Crash? && i < |w.messages| && j in w.db.jobs
    requires ActiveJobs(w.db, w.messages[i].documentId) == {j}
    requires HoldsJob(w.messages[i]) ==> w.messages[i].state.jobId == j
    ensures var n := Next(w, s);
            j in n.db.jobs && i < |n.messages|
            && (w.messages[i].state.Waiting? || HoldsJob(w.messages[i]) ==>
                  Settled(n.db.jobs[j].status) || (HoldsJob(n.messages[i]) && n.messages[i].state.jobId == j))
  {
    hide ActiveJobs, NewPrediction;
  }

  lemma TheActiveJob(w: World, j: Id)
    requires JobsOk(w.db.jobs, w.db.documents) && j in w.db.jobs && !Settled(w.db.jobs[j].status)
    ensures Active(w.db.jobs[j].status) && ActiveJobs(w.db, w.db.jobs[j].documentId) == {j}
  {}

  /**
   From the commit on, whatever the other processes do: unless a worker is killed while it holds the
   message, a job is settled as soon as its message has been delivered and let go of.
   */
  lemma {:induction false} FirstDeliverySettles(w: World, steps: seq<Step>, i: nat, j: Id)
    requires Inv(w) && i < |w.messages| && w.messages[i].state.Waiting?
    requires j in w.db.jobs && w.db.jobs[j].documentId == w.messages[i].documentId
    requires Crash(i) !in steps
    ensures var n := Run(w, steps);
            && i < |n.messages| && j in n.db.jobs
            && (Deliveries(w, steps, i) > 0 && !InFlight(n.messages[i]) ==> Settled(n.db.jobs[j].status))
  {
    hide Inv, Run, Deliveries;
    var retries := w.messages[i].retriesLeft;
    StartsOnTrack(w, i, j);
    StaysOnTrack(w, steps, i, j, retries);
    DeliveriesSpendBudget(w, steps, i);
  }

  lemma StartsOnTrack(w: World, i: nat, j: Id)
    requires Inv(w) && i < |w.messages| && w.messages[i].state.Waiting?
    requires j in w.db.jobs && w.db.jobs[j].documentId == w.messages[i].documentId
    ensures OnTrack(w, i, j, w.messages[i].retriesLeft)
  {}

  lemma {:induction false} StaysOnTrack(w: World, steps: seq<Step>, i: nat, j: Id, retries: nat)
    requires Inv(w) && OnTrack(w, i, j, retries) && Crash(i) !in steps
    ensures OnTrack(Run(w, steps), i, j, retries)
    decreases |steps|
  {
    if steps != [] {
      assert JobsOk(w.db.jobs, w.db.documents) && MessagesOk(w) && Below(w.db.jobs.Keys, w.nextId);
      hide Inv, OnTrack, JobsOk, MessagesOk, Below;
      OnTrackStep(w, steps[0], i, j, retries);
      StepKeeps(w, steps[0]);
      StaysOnTrack(Next(w, steps[0]), steps[1..], i, j, retries);
    }
  }
}
