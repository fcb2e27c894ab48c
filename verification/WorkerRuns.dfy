/** What the loops of the ingestion worker do, read off their inputs: which files, how far, and when a session ends. */
module WorkerRuns {
  import opened Common
  import opened Protocol
  import opened Traces
  import opened Stability
  import opened Worker

  // ---- one poll ----

  /** The file was read, has no TIFF head, and the commit of its rejection fails: nothing else ends a poll. */
  predicate EndsPoll(input: FileInput) {
    input.content.Some? && !IsTiff(input.content.value) && !input.faults.commits
  }

  /** How many of the stable files are reached, counted from `from`. */
  function Reached(stable: seq<FileInfo>, input: nat -> FileInput, from: nat): (n: nat)
    requires from <= |stable|
    ensures from <= n <= |stable|
    decreases |stable| - from
  {
    if from == |stable| then from
    else if EndsPoll(input(from)) then from + 1
    else Reached(stable, input, from + 1)
  }

  /** The steps of the first `n` files: those that can be read are ingested, the others are passed over. */
  function ReadTraces(stable: seq<FileInfo>, input: nat -> FileInput, meta: Id, n: nat): seq<Step>
    requires n <= |stable|
  {
    if n == 0 then []
    else
      var f, i := stable[n - 1], input(n - 1);
      ReadTraces(stable, input, meta, n - 1)
      + (if i.content.Some? then IngestTrace(f.remotePath, f.filename, i.content.value, meta, i.faults) else [])
  }

  lemma {:induction false} ReachedIs(stable: seq<FileInfo>, input: nat -> FileInput, from: nat)
    requires from <= |stable|
    ensures var n := Reached(stable, input, from);
            && (forall k :: from <= k < n - 1 ==> !EndsPoll(input(k)))
            && (n < |stable| ==> n > from && EndsPoll(input(n - 1)))
    decreases |stable| - from
  {
    if from < |stable| && !EndsPoll(input(from)) { ReachedIs(stable, input, from + 1); }
  }

  lemma {:induction false} FilesFrom(stable: seq<FileInfo>, input: nat -> FileInput, meta: Id, from: nat)
    requires from <= |stable|
    ensures ReadTraces(stable, input, meta, from) + FilesSteps(stable, input, meta, from)
      == ReadTraces(stable, input, meta, Reached(stable, input, from))
    decreases |stable| - from
  {
    hide FileSteps, EndsPoll, ReadTraces, FilesSteps;
    FilesUnfoldAt(stable, input, meta, from);
    if from < |stable| {
      FilesFrom(stable, input, meta, from + 1);
      Regroup(ReadTraces(stable, input, meta, from), FileSteps(stable[from], input(from), meta),
              if EndsPoll(input(from)) then [] else FilesSteps(stable, input, meta, from + 1));
    }
  }

  lemma FilesUnfoldAt(stable: seq<FileInfo>, input: nat -> FileInput, meta: Id, from: nat)
    requires from <= |stable|
    ensures from == |stable| ==> FilesSteps(stable, input, meta, from) == []
    ensures from < |stable| ==>
      var mine := FileSteps(stable[from], input(from), meta);
      && ReadTraces(stable, input, meta, from + 1) == ReadTraces(stable, input, meta, from) + mine
      && FilesSteps(stable, input, meta, from)
         == mine + (if EndsPoll(input(from)) then [] else FilesSteps(stable, input, meta, from + 1))
  {
    hide IngestTrace, IsTiff;
  }

  /**
   One poll takes, file by file, the ingestion steps of every stable file that could be read: up to the first one
   that was read, is no TIFF and whose rejection could not be committed, and through all of them if there is none.
   Neither a file that cannot be read nor a fault in the ingestion of a TIFF keeps a later file from its turn.
   */
  lemma PollReadsFiles(stable: seq<FileInfo>, input: nat -> FileInput, meta: Id) returns (n: nat)
    ensures n <= |stable| && FilesSteps(stable, input, meta, 0) == ReadTraces(stable, input, meta, n)
    ensures forall k :: 0 <= k < n - 1 ==>
      input(k).content.None? || IsTiff(input(k).content.value) || input(k).faults.commits
    ensures n < |stable| ==>
      n > 0 && input(n - 1).content.Some? && !IsTiff(input(n - 1).content.value) && !input(n - 1).faults.commits
  {
    n := Reached(stable, input, 0);
    ReachedIs(stable, input, 0);
    FilesFrom(stable, input, meta, 0);
    assert [] + FilesSteps(stable, input, meta, 0) == FilesSteps(stable, input, meta, 0);
    hide IsTiff;
  }

  // ---- one connection ----

  /** The dictionary after the first `n` rounds: the last successful listing, or what there was before. */
  function KnownAfter(seen: map<string, Stat>, rounds: seq<Round>, n: nat): map<string, Stat>
    requires n <= |rounds|
    decreases n
  {
    if n == 0 then seen
    else if rounds[n - 1].listing.Some? then ListingMap(rounds[n - 1].listing.value)
    else KnownAfter(seen, rounds, n - 1)
  }

  /** What round `r` goes over. */
  function StableIn(seen: map<string, Stat>, rounds: seq<Round>, r: nat): seq<FileInfo>
    requires r < |rounds|
  {
    if rounds[r].listing.None? then [] else Repeated(KnownAfter(seen, rounds, r), rounds[r].listing.value)
  }

  predicate EndsRound(stable: seq<FileInfo>, input: nat -> FileInput) {
    exists k :: 0 <= k < |stable| && EndsPoll(input(k))
  }

  function RoundsReached(seen: map<string, Stat>, rounds: seq<Round>, from: nat): (m: nat)
    requires from <= |rounds|
    ensures from <= m <= |rounds|
    decreases |rounds| - from
  {
    if from == |rounds| then from
    else if EndsRound(StableIn(seen, rounds, from), rounds[from].input) then from + 1
    else RoundsReached(seen, rounds, from + 1)
  }

  function RoundTraces(seen: map<string, Stat>, rounds: seq<Round>, meta: Id, m: nat): seq<Step>
    requires m <= |rounds|
    decreases m
  {
    if m == 0 then []
    else
      var stable, input := StableIn(seen, rounds, m - 1), rounds[m - 1].input;
      RoundTraces(seen, rounds, meta, m - 1) + ReadTraces(stable, input, meta, Reached(stable, input, 0))
  }

  lemma {:induction false} RoundsReachedIs(seen: map<string, Stat>, rounds: seq<Round>, from: nat)
    requires from <= |rounds|
    ensures var m := RoundsReached(seen, rounds, from);
            && (forall r :: from <= r < m - 1 ==> !EndsRound(StableIn(seen, rounds, r), rounds[r].input))
            && (m < |rounds| ==> m > from && EndsRound(StableIn(seen, rounds, m - 1), rounds[m - 1].input))
    decreases |rounds| - from
  {
    hide EndsRound, StableIn;
    if from < |rounds| && !EndsRound(StableIn(seen, rounds, from), rounds[from].input) {
      RoundsReachedIs(seen, rounds, from + 1);
    }
  }

  lemma RoundStepsAre(seen: map<string, Stat>, rounds: seq<Round>, r: nat, meta: Id)
    requires r < |rounds|
    ensures var known := KnownAfter(seen, rounds, r);
            var stable, input := StableIn(seen, rounds, r), rounds[r].input;
            && Reported(known, rounds[r]) == stable && Remembered(known, rounds[r]) == KnownAfter(seen, rounds, r + 1)
            && FilesSteps(stable, input, meta, 0) == ReadTraces(stable, input, meta, Reached(stable, input, 0))
            && (RoundEscapes(stable, input) <==> EndsRound(stable, input))
  {
    hide ListingMap, Repeated, IsTiff;
    var stable, input := StableIn(seen, rounds, r), rounds[r].input;
    FilesFrom(stable, input, meta, 0);
    assert [] + FilesSteps(stable, input, meta, 0) == FilesSteps(stable, input, meta, 0);
    forall k ensures Escapes(input(k)) <==> EndsPoll(input(k)) {}
  }

  lemma RoundsUnfoldAt(seen: map<string, Stat>, rounds: seq<Round>, meta: Id, r: nat)
    requires r < |rounds|
    ensures var known, left, rest := KnownAfter(seen, rounds, r), rounds[r..], rounds[r + 1..];
            var mine := FilesSteps(StableIn(seen, rounds, r), rounds[r].input, meta, 0);
            var ends, next := EndsRound(StableIn(seen, rounds, r), rounds[r].input), KnownAfter(seen, rounds, r + 1);
            && RoundTraces(seen, rounds, meta, r + 1) == RoundTraces(seen, rounds, meta, r) + mine
            && RoundsSteps(known, left, meta) == mine + (if ends then [CloseSession] else RoundsSteps(next, rest, meta))
            && RoundsSeen(known, left) == if ends then next else RoundsSeen(next, rest)
  {
    RoundStepsAre(seen, rounds, r, meta);
    hide KnownAfter, StableIn, Reported, Remembered, RoundEscapes, EndsRound, FilesSteps, ReadTraces, Reached;
    assert rounds[r..][0] == rounds[r] && rounds[r..][1..] == rounds[r + 1..];
  }

  lemma Regroup(a: seq<Step>, b: seq<Step>, c: seq<Step>)
    ensures a + (b + c) == a + b + c
  {}

  lemma {:induction false} RoundsFrom(seen: map<string, Stat>, rounds: seq<Round>, meta: Id, from: nat)
    requires from <= |rounds|
    ensures var left, m := rounds[from..], RoundsReached(seen, rounds, from);
            && RoundTraces(seen, rounds, meta, from) + RoundsSteps(KnownAfter(seen, rounds, from), left, meta)
               == RoundTraces(seen, rounds, meta, m) + [CloseSession]
            && RoundsSeen(KnownAfter(seen, rounds, from), left) == KnownAfter(seen, rounds, m)
    decreases |rounds| - from
  {
    hide KnownAfter, StableIn, EndsRound, FilesSteps, RoundTraces, RoundsSteps, RoundsSeen;
    if from == |rounds| {
      assert rounds[from..] == [];
      NoRounds(KnownAfter(seen, rounds, from), meta);
    } else {
      RoundsUnfoldAt(seen, rounds, meta, from);
      RoundsFrom(seen, rounds, meta, from + 1);
      var mine := FilesSteps(StableIn(seen, rounds, from), rounds[from].input, meta, 0);
      var later := if EndsRound(StableIn(seen, rounds, from), rounds[from].input) then [CloseSession]
                   else RoundsSteps(KnownAfter(seen, rounds, from + 1), rounds[from + 1..], meta);
      Regroup(RoundTraces(seen, rounds, meta, from), mine, later);
    }
  }

  lemma NoRounds(seen: map<string, Stat>, meta: Id)
    ensures RoundsSteps(seen, [], meta) == [CloseSession] && RoundsSeen(seen, []) == seen
  {}

  /**
   One connection polls round after round and then closes its session: before its last round only after one in
   which a file was read, is no TIFF, and its rejection could not be committed. A listing that fails ends nothing.
   The dictionary it leaves behind is the last successful listing among those rounds.
   */
  lemma ConnectionPollsRounds(seen: map<string, Stat>, rounds: seq<Round>, meta: Id) returns (m: nat)
    ensures m <= |rounds| && RoundsSteps(seen, rounds, meta) == RoundTraces(seen, rounds, meta, m) + [CloseSession]
    ensures RoundsSeen(seen, rounds) == KnownAfter(seen, rounds, m)
    ensures forall r, k | 0 <= r < m - 1 && 0 <= k < |StableIn(seen, rounds, r)| ::
      var i := rounds[r].input(k); i.content.None? || IsTiff(i.content.value) || i.faults.commits
    ensures m < |rounds| ==> m > 0 && EndsRound(StableIn(seen, rounds, m - 1), rounds[m - 1].input)
  {
    hide IsTiff, KnownAfter, StableIn, RoundsSteps, RoundsSeen;
    m := RoundsReached(seen, rounds, 0);
    RoundsReachedIs(seen, rounds, 0);
    RoundsFrom(seen, rounds, meta, 0);
    KnownAtFirst(seen, rounds);
    assert rounds[0..] == rounds;
    assert [] + RoundsSteps(seen, rounds, meta) == RoundsSteps(seen, rounds, meta);
    forall r, k | 0 <= r < m - 1 && 0 <= k < |StableIn(seen, rounds, r)|
      ensures !EndsPoll(rounds[r].input(k))
    {
      assert !EndsRound(StableIn(seen, rounds, r), rounds[r].input);
    }
  }

  lemma KnownAtFirst(seen: map<string, Stat>, rounds: seq<Round>)
    ensures KnownAfter(seen, rounds, 0) == seen
  {}

  // ---- the worker ----

  /** What connection after connection does, each with what the ones before it remember. */
  function ConnectionTraces(seen: map<string, Stat>, connections: seq<Connection>, n: nat)
    : (seq<Step>, map<string, Stat>)
    requires n <= |connections|
    decreases n
  {
    if n == 0 then ([], seen)
    else
      var (before, known) := ConnectionTraces(seen, connections, n - 1);
      match connections[n - 1]
      case Refused => (before, known)
      case NoModel => (before + [CloseSession], known)
      case Connected(meta, rounds) => (before + RoundsSteps(known, rounds, meta), RoundsSeen(known, rounds))
  }

  lemma {:induction false} ConnectionsFrom(seen: map<string, Stat>, connections: seq<Connection>, from: nat)
    requires from <= |connections|
    ensures var (before, known) := ConnectionTraces(seen, connections, from);
            ConnectionTraces(seen, connections, |connections|)
            == (before + WorkerSteps(known, connections[from..]), WorkerSeen(known, connections[from..]))
    decreases |connections| - from
  {
    hide RoundsSteps, RoundsSeen;
    var (before, known) := ConnectionTraces(seen, connections, from);
    if from == |connections| {
      assert before + [] == before;
    } else {
      var left, rest := connections[from..], connections[from + 1..];
      assert left[0] == connections[from] && left[1..] == rest;
      ConnectionsFrom(seen, connections, from + 1);
      if connections[from].NoModel? {
        var later := WorkerSteps(known, rest);
        assert before + ([CloseSession] + later) == before + [CloseSession] + later;
      } else if connections[from].Connected? {
        var mine := RoundsSteps(known, connections[from].rounds, connections[from].meta);
        var later := WorkerSteps(RoundsSeen(known, connections[from].rounds), rest);
        assert before + (mine + later) == before + mine + later;
      }
    }
  }

  /** The worker as a whole skips no connection, whatever became of the one before, and hands the dictionary on. */
  lemma WorkerTriesAll(seen: map<string, Stat>, connections: seq<Connection>)
    ensures (WorkerSteps(seen, connections), WorkerSeen(seen, connections))
      == ConnectionTraces(seen, connections, |connections|)
  {
    hide WorkerSteps, WorkerSeen;
    ConnectionsFrom(seen, connections, 0);
    assert connections[0..] == connections;
    assert [] + WorkerSteps(seen, connections) == WorkerSteps(seen, connections);
  }
}
