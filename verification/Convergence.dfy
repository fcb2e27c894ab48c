/** A poll brings every TIFF of the directory into the store, whatever inference workers do in between. */
module Convergence {
  import opened Common
  import opened Store
  import opened Protocol
  import opened ProtocolInvariant
  import opened ProtocolFrames
  import opened ProtocolPreservation
  import opened ProtocolLimits
  import opened Traces
  import opened Polling

  // ---- what the ingestion of one file keeps and brings, with workers in between ----

  ghost predicate Held(w: World, e: Entry) {
    Present(w, w.hash(e.data), e.info.remotePath)
  }

  ghost predicate AllHeld(w: World, es: seq<Entry>) {
    forall k :: 0 <= k < |es| && IsTiff(es[k].data) ==> Held(w, es[k])
  }

  predicate SomeRejected(es: seq<Entry>) {
    exists k :: 0 <= k < |es| && !IsTiff(es[k].data)
  }

  /** Nothing is flushed that no coming commit will publish. */
  predicate Clean(w: World) {
    w.pending == NOTHING || !w.ingest.Idle?
  }

  /** Where the ingestion worker may be when `k` steps of the first entry are done. */
  ghost predicate Midway(w: World, es: seq<Entry>, k: nat) {
    if k == 0 then w.ingest.Idle?
    else
      && es != []
      && if IsTiff(es[0].data)
         then Held(w, es[0]) && (w.ingest.Idle? || (k == 1 && w.ingest.Uploading?) || (k == 2 && w.ingest.Enqueueing?)
                                 || (k == 3 && w.ingest.Committing?))
         else w.ingest == Rejecting(es[0].info.remotePath, es[0].info.filename)
  }

  /** No step but closing the session or a failing commit takes a document out of sight. */
  lemma PresentStays(w: World, s: Step, checksum: string, path: string)
    requires Inv(w) && !Drops(w, s) && Present(w, checksum, path)
    ensures Present(Next(w, s), checksum, path)
  {
    PendingParts(w);
    StepKeeps(w, s);
    hide Inv, Next, IngestOk, BatchesOk, IdentitiesOk, Below;
    var d :| d in Duplicates(Visible(w), checksum, path);
    if d in w.pending.documents {
      PendingStep(w, s, d, checksum, path);
    } else {
      CommittedStep(w, s, d, checksum, path);
    }
    hide Publishes, Drops, Present;
    PresentIf(Next(w, s), d, checksum, path);
  }

  /** What every step of these runs keeps. */
  ghost predicate Onward(w: World, n: World) {
    Inv(n) && n.hash == w.hash && (Clean(w) ==> Clean(n)) && forall x: Entry :: Held(w, x) ==> Held(n, x)
  }

  lemma StepHolds(w: World, s: Step)
    requires Inv(w) && !Drops(w, s) && (Clean(w) ==> Clean(Next(w, s)))
    ensures Onward(w, Next(w, s))
  {
    hide Inv, Next, Present, Clean, Drops;
    StepKeeps(w, s);
    HashStays(w, s);
    forall x: Entry | Held(w, x) ensures Held(Next(w, s), x) {
      PresentStays(w, s, w.hash(x.data), x.info.remotePath);
    }
  }

  lemma WorkerHolds(w: World, s: Step)
    requires Inv(w) && IsWorkerStep(s)
    ensures Onward(w, Next(w, s)) && Next(w, s).ingest == w.ingest && (Clean(w) <==> Clean(Next(w, s)))
  {
    hide Inv, Next;
    WorkersKeepDocuments(w, s);
    StepHolds(w, s);
  }

  /** The next step of the ingestion worker. */
  lemma EntryHolds(w: World, es: seq<Entry>, k: nat, meta: Id)
    requires Inv(w) && k < 4 && es != [] && Midway(w, es, k)
    ensures var n := Next(w, EntrySteps(es[0], meta)[k]);
            && Onward(w, n)
            && (if k < 3 then Midway(n, es, k + 1) else n.ingest.Idle?)
            && (k == 0 && !IsTiff(es[0].data) ==> Clean(n))
  {
    var e := es[0];
    match k
    case 0 => BeginHolds(w, e, meta);
    case 1 => UploadHolds(w, es);
    case 2 => EnqueueHolds(w, es);
    case 3 => CommitHolds(w, es);
  }

  lemma BeginHolds(w: World, e: Entry, meta: Id)
    requires Inv(w) && w.ingest.Idle?
    ensures var n := Next(w, Begin(e.info.remotePath, e.info.filename, e.data, meta));
            Onward(w, n) && Midway(n, [e], 1) && (!IsTiff(e.data) ==> Clean(n))
  {
    hide Inv, Next, IsTiff, Visible, SourceDir, Onward, Present;
    var s := Begin(e.info.remotePath, e.info.filename, e.data, meta);
    AfterBegin(w, e.info.remotePath, e.info.filename, e.data, meta);
    StepKeeps(w, s);
    var n := Next(w, s);
    BeginBrings(w, e, meta);
    hide BeginIngest;
    StepHolds(w, s);
    if IsTiff(e.data) && n != w {
      PresentIf(n, w.nextId + 1, n.hash(e.data), e.info.remotePath);
    }
  }

  lemma BeginBrings(w: World, e: Entry, meta: Id)
    requires w.ingest.Idle?
    ensures var n := BeginIngest(w, e.info.remotePath, e.info.filename, e.data, meta);
            && (n.ingest.Idle? ==> n == w)
            && if !IsTiff(e.data) then n.ingest == Rejecting(e.info.remotePath, e.info.filename)
               else (n == w && Held(w, e))
                    || (n.ingest.Uploading? && Has(n.pending.documents, w.nextId + 1, n.hash(e.data),
                        e.info.remotePath))
  {
    hide IsTiff, Visible, SourceDir;
  }

  lemma UploadHolds(w: World, es: seq<Entry>)
    requires Inv(w) && Midway(w, es, 1)
    ensures Onward(w, Next(w, Upload(Returns))) && Midway(Next(w, Upload(Returns)), es, 2)
  {
    hide Inv, Next, Held, Onward, IsTiff;
    if w.ingest.Uploading? {
      UploadingDocument(w);
      AfterUpload(w, Returns);
      assert Next(w, Upload(Returns)).ingest.Enqueueing?;
    } else {
      Skips(w, Upload(Returns));
    }
    hide UploadOriginal;
    StepHolds(w, Upload(Returns));
    OnwardHeld(w, Next(w, Upload(Returns)), es[0]);
  }

  lemma UploadingDocument(w: World)
    requires Inv(w) && w.ingest.Uploading?
    ensures w.ingest.documentId in w.pending.documents
  {
    assert IngestOk(w);
    hide Inv;
  }

  lemma OnwardHeld(w: World, n: World, e: Entry)
    requires Onward(w, n)
    ensures Held(w, e) ==> Held(n, e)
  {
    hide Inv, Held;
  }

  lemma EnqueueHolds(w: World, es: seq<Entry>)
    requires Inv(w) && Midway(w, es, 2)
    ensures Onward(w, Next(w, Enqueue(Returns))) && Midway(Next(w, Enqueue(Returns)), es, 3)
  {
    hide Inv, Next, Held, Onward, IsTiff;
    if w.ingest.Enqueueing? {
      AfterEnqueue(w, Returns);
    } else {
      Skips(w, Enqueue(Returns));
    }
    StepHolds(w, Enqueue(Returns));
    OnwardHeld(w, Next(w, Enqueue(Returns)), es[0]);
  }

  lemma CommitHolds(w: World, es: seq<Entry>)
    requires Inv(w) && Midway(w, es, 3)
    ensures Onward(w, Next(w, Commit(true))) && Next(w, Commit(true)).ingest.Idle?
  {
    hide Inv, Next, Held, Onward, IsTiff;
    CommitEnds(w);
    StepHolds(w, Commit(true));
  }

  lemma CommitEnds(w: World)
    ensures var n := Next(w, Commit(true));
            n == w || (n.ingest.Idle? && n.pending == NOTHING)
    ensures w.ingest.Committing? || w.ingest.Rejecting? ==> Next(w, Commit(true)).ingest.Idle?
  {}

  lemma OnwardTwice(w: World, m: World, n: World)
    requires Onward(w, m) && Onward(m, n)
    ensures Onward(w, n)
  {}

  lemma MidwayHolds(w: World, es: seq<Entry>, k: nat)
    requires k > 0 && Midway(w, es, k)
    ensures IsTiff(es[0].data) ==> Held(w, es[0])
    ensures !IsTiff(es[0].data) ==> Clean(w)
  {}

  lemma FirstAndOthers(es: seq<Entry>)
    requires es != []
    ensures SomeRejected(es) <==> !IsTiff(es[0].data) || SomeRejected(es[1..])
    ensures forall w :: AllHeld(w, es) <==> (IsTiff(es[0].data) ==> Held(w, es[0])) && AllHeld(w, es[1..])
  {
    hide IsTiff, Held;
    if SomeRejected(es[1..]) {
      var k :| 0 <= k < |es[1..]| && !IsTiff(es[1..][k].data);
      assert !IsTiff(es[k + 1].data);
    }
    if SomeRejected(es) && IsTiff(es[0].data) {
      var k :| 0 <= k < |es| && !IsTiff(es[k].data);
      assert es[1..][k - 1] == es[k];
    }
    forall w ensures AllHeld(w, es) <==> (IsTiff(es[0].data) ==> Held(w, es[0])) && AllHeld(w, es[1..]) {
      if (IsTiff(es[0].data) ==> Held(w, es[0])) && AllHeld(w, es[1..]) {
        forall k | 0 <= k < |es| && IsTiff(es[k].data) ensures Held(w, es[k]) {
          if k > 0 { assert es[1..][k - 1] == es[k]; }
        }
      }
      if AllHeld(w, es) {
        forall k | 0 <= k < |es[1..]| && IsTiff(es[1..][k].data) ensures Held(w, es[1..][k]) {
          assert es[1..][k] == es[k + 1];
        }
      }
    }
  }

  /** A run in which the ingestion worker goes through the entries, and inference workers do anything in between. */
  lemma {:induction false} Interleaved(w: World, steps: seq<Step>, es: seq<Entry>, k: nat, meta: Id)
    requires Inv(w) && k < 4 && (k > 0 ==> es != []) && Midway(w, es, k) && IngestPart(steps) == Rest(es, k, meta)
    ensures var n := Run(w, steps);
            && Onward(w, n) && n.ingest.Idle? && AllHeld(n, es)
            && (SomeRejected(es) ==> Clean(n))
    decreases |steps|
  {
    hide Inv, Next, Held, IsTiff, EntrySteps, Clean, Rest, SomeRejected, AllHeld;
    NothingLeftIff(es, k, meta);
    if steps == [] {
      OnNothing(w);
    } else if IsWorkerStep(steps[0]) {
      var n := Next(w, steps[0]);
      WorkerHolds(w, steps[0]);
      hide IsWorkerStep;
      Interleaved(n, steps[1..], es, k, meta);
      OnwardTwice(w, n, Run(w, steps));
    } else {
      assert IngestPart(steps)[0] == steps[0] && IngestPart(steps)[1..] == IngestPart(steps[1..]);
      RestAdvances(es, k, meta);
      assert steps[0] == EntrySteps(es[0], meta)[k];
      EntryHolds(w, es, k, meta);
      FirstAndOthers(es);
      hide IsWorkerStep, IngestPart;
      var n := Next(w, steps[0]);
      if k > 0 { MidwayHolds(w, es, k); }
      if k == 3 {
        Interleaved(n, steps[1..], es[1..], 0, meta);
      } else {
        Interleaved(n, steps[1..], es, k + 1, meta);
      }
      OnwardTwice(w, n, Run(w, steps));
    }
  }

  lemma OnNothing(w: World)
    requires Inv(w)
    ensures Onward(w, w) && AllHeld(w, []) && !SomeRejected([])
  {}

  lemma AllHeldFor(w: World, es: seq<Entry>, dir: seq<Entry>)
    requires forall e :: e in dir ==> e in es
    ensures (AllHeld(w, es) ==> AllHeld(w, dir)) && (SomeRejected(dir) ==> SomeRejected(es))
  {
    hide Held, IsTiff;
    if AllHeld(w, es) {
      forall k | 0 <= k < |dir| && IsTiff(dir[k].data) ensures Held(w, dir[k]) {
        assert dir[k] in es;
      }
    }
    if SomeRejected(dir) {
      var k :| 0 <= k < |dir| && !IsTiff(dir[k].data);
      assert dir[k] in es;
    }
  }

  lemma WholeRest(es: seq<Entry>, meta: Id)
    ensures Rest(es, 0, meta) == EntriesSteps(es, meta)
  {
    if es != [] { assert EntrySteps(es[0], meta)[0..] == EntrySteps(es[0], meta); }
  }

  /** At most one document shares checksum and path with a file, so that one that is there is the only one. */
  lemma OneDocument(w: World, e: Entry)
    requires Inv(w) && Held(w, e)
    ensures exists d :: DocumentsAt(Visible(w), w.hash(e.data), e.info.remotePath) == {d}
  {
    hide Inv, BatchesOk, IngestOk, Below, Visible;
    PendingParts(w);
    DuplicatesAreAll(w, w.hash(e.data), e.info.remotePath);
    var s := Duplicates(Visible(w), w.hash(e.data), e.info.remotePath);
    var d :| d in s;
    assert s == {d};
  }
}
