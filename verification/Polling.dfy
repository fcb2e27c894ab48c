/**
 Polling a directory that does not change, without faults: the steps of the ingestion worker, and runs with other steps
 in between.
 */
module Polling {
  import opened Common
  import opened Protocol
  import opened Traces
  import opened Stability
  import opened Worker

  // ---- a directory ----

  datatype Entry = Entry(info: FileInfo, data: Bytes)

  function Infos(dir: seq<Entry>): seq<FileInfo> {
    if dir == [] then [] else Infos(dir[..|dir| - 1]) + [dir[|dir| - 1].info]
  }

  predicate DistinctEntries(dir: seq<Entry>) {
    forall i, k :: 0 <= i < k < |dir| ==> dir[i].info.filename != dir[k].info.filename
  }

  /** The entries the stability check lets through. */
  function StableEntries(seen: map<string, Stat>, dir: seq<Entry>): seq<Entry> {
    if dir == [] then []
    else StableEntries(seen, dir[..|dir| - 1]) + (if Unchanged(seen, dir[|dir| - 1].info) then [dir[|dir| - 1]] else [])
  }

  lemma {:induction false} InfosAt(dir: seq<Entry>)
    ensures |Infos(dir)| == |dir| && forall k :: 0 <= k < |dir| ==> Infos(dir)[k] == dir[k].info
  {
    if dir != [] { InfosAt(dir[..|dir| - 1]); }
  }

  /** The poll goes over the files that `DetectStableFiles` reports, in the same order. */
  lemma {:induction false} StableEntriesAreReported(seen: map<string, Stat>, dir: seq<Entry>)
    requires DistinctEntries(dir)
    ensures Infos(StableEntries(seen, dir)) == Repeated(seen, Infos(dir))
  {
    InfosAt(dir);
    IncrementalIsSimple(seen, Infos(dir));
    StableInfos(seen, dir);
  }

  lemma {:induction false} StableInfos(seen: map<string, Stat>, dir: seq<Entry>)
    ensures Infos(StableEntries(seen, dir)) == UnchangedOf(seen, Infos(dir))
  {
    if dir != [] {
      var front, last := dir[..|dir| - 1], dir[|dir| - 1];
      StableInfos(seen, front);
      InfosSnoc(front, last);
      assert dir == front + [last];
      UnchangedSnoc(seen, Infos(front), last.info);
      InfosSnoc(StableEntries(seen, front), last);
      assert Infos(StableEntries(seen, front)) + [] == Infos(StableEntries(seen, front));
      assert StableEntries(seen, front) + [] == StableEntries(seen, front);
    }
  }

  lemma InfosSnoc(dir: seq<Entry>, e: Entry)
    ensures Infos(dir + [e]) == Infos(dir) + [e.info]
  {
    assert (dir + [e])[..|dir|] == dir;
  }

  lemma UnchangedSnoc(seen: map<string, Stat>, files: seq<FileInfo>, f: FileInfo)
    ensures UnchangedOf(seen, files + [f]) == UnchangedOf(seen, files) + (if Unchanged(seen, f) then [f] else [])
  {
    assert (files + [f])[..|files|] == files;
  }

  /** When the directory has not changed since the last poll, every entry is stable. */
  lemma {:induction false} AllStable(dir: seq<Entry>, seen: map<string, Stat>)
    requires forall k :: 0 <= k < |dir| ==> Unchanged(seen, dir[k].info)
    ensures StableEntries(seen, dir) == dir
  {
    if dir != [] { AllStable(dir[..|dir| - 1], seen); }
  }

  lemma SecondPollSeesAll(dir: seq<Entry>)
    requires DistinctEntries(dir)
    ensures StableEntries(ListingMap(Infos(dir)), dir) == dir
  {
    InfosAt(dir);
    forall k | 0 <= k < |dir| ensures Unchanged(ListingMap(Infos(dir)), dir[k].info) {
      ListingMapEntry(Infos(dir), dir[k].info);
      assert Infos(dir)[k] in Infos(dir);
    }
    AllStable(dir, ListingMap(Infos(dir)));
  }

  // ---- the worker's steps over a directory ----

  /** The steps of one file without faults. */
  function EntrySteps(e: Entry, meta: Id): (r: seq<Step>)
    ensures |r| == 4
  {
    IngestTrace(e.info.remotePath, e.info.filename, e.data, meta, NO_FAULTS)
  }

  function EntriesSteps(entries: seq<Entry>, meta: Id): seq<Step> {
    if entries == [] then [] else EntrySteps(entries[0], meta) + EntriesSteps(entries[1..], meta)
  }

  /** Each stable file of the listing can be read and is ingested without faults. */
  ghost predicate QuietRound(seen: map<string, Stat>, r: Round, dir: seq<Entry>) {
    var stable := StableEntries(seen, dir);
    && r.listing == Some(Infos(dir))
    && forall k :: 0 <= k < |stable| ==> r.input(k) == FileInput(Some(stable[k].data), NO_FAULTS)
  }

  ghost predicate QuietRounds(seen: map<string, Stat>, rounds: seq<Round>, dir: seq<Entry>) {
    forall n :: 0 <= n < |rounds| ==> QuietRound(if n == 0 then seen else ListingMap(Infos(dir)), rounds[n], dir)
  }

  /** What the polls go over: what repeats the memory, then again and again everything. */
  function Polled(seen: map<string, Stat>, dir: seq<Entry>, n: nat): seq<Entry>
    decreases n
  {
    if n == 0 then [] else StableEntries(seen, dir) + Polled(ListingMap(Infos(dir)), dir, n - 1)
  }

  lemma {:induction false} FilesAreEntries(entries: seq<Entry>, input: nat -> FileInput, meta: Id, from: nat)
    requires from <= |entries| && |Infos(entries)| == |entries|
    requires forall k :: 0 <= k < |entries| ==> Infos(entries)[k] == entries[k].info
    requires forall k :: 0 <= k < |entries| ==> input(k) == FileInput(Some(entries[k].data), NO_FAULTS)
    ensures FilesSteps(Infos(entries), input, meta, from) == EntriesSteps(entries[from..], meta)
    decreases |entries| - from
  {
    if from < |entries| {
      FilesAreEntries(entries, input, meta, from + 1);
      assert entries[from..][1..] == entries[from + 1..];
    }
  }

  lemma {:induction false} EntriesConcat(a: seq<Entry>, b: seq<Entry>, meta: Id)
    ensures EntriesSteps(a + b, meta) == EntriesSteps(a, meta) + EntriesSteps(b, meta)
  {
    hide EntrySteps;
    if a == [] {
      assert a + b == b;
    } else {
      assert (a + b)[1..] == a[1..] + b;
      EntriesConcat(a[1..], b, meta);
    }
  }

  /** The inner loop of the worker runs exactly these steps, then closes its session. */
  lemma {:induction false} RoundsAreEntries(seen: map<string, Stat>, rounds: seq<Round>, dir: seq<Entry>, meta: Id)
    requires DistinctEntries(dir) && QuietRounds(seen, rounds, dir)
    ensures RoundsSteps(seen, rounds, meta) == EntriesSteps(Polled(seen, dir, |rounds|), meta) + [CloseSession]
    decreases |rounds|
  {
    hide ListingMap, Infos, StableEntries, DistinctEntries, FilesSteps, QuietRounds, QuietRound, Reported, Remembered,
      RoundEscapes, EntriesSteps;
    if rounds == [] {
      NoEntries(meta);
    } else {
      var stable, again := StableEntries(seen, dir), ListingMap(Infos(dir));
      var later := Polled(again, dir, |rounds| - 1);
      LaterRounds(seen, rounds, dir);
      RoundIsEntries(seen, rounds[0], dir, meta);
      RoundsAreEntries(again, rounds[1..], dir, meta);
      EntriesConcat(stable, later, meta);
      assert Polled(seen, dir, |rounds|) == stable + later;
      assert RoundsSteps(seen, rounds, meta) == EntriesSteps(stable, meta) + RoundsSteps(again, rounds[1..], meta);
    }
  }

  lemma NoEntries(meta: Id)
    ensures EntriesSteps([], meta) == []
  {}

  lemma RoundIsEntries(seen: map<string, Stat>, r: Round, dir: seq<Entry>, meta: Id)
    requires DistinctEntries(dir) && QuietRound(seen, r, dir)
    ensures Remembered(seen, r) == ListingMap(Infos(dir)) && !RoundEscapes(Reported(seen, r), r.input)
    ensures FilesSteps(Reported(seen, r), r.input, meta, 0) == EntriesSteps(StableEntries(seen, dir), meta)
  {
    hide ListingMap, Repeated, StableEntries, DistinctEntries, FilesSteps, EntriesSteps, Infos;
    var stable := StableEntries(seen, dir);
    StableEntriesAreReported(seen, dir);
    InfosAt(stable);
    FilesAreEntries(stable, r.input, meta, 0);
    assert stable[0..] == stable;
    NoneEscapes(stable, r.input);
  }

  lemma LaterRounds(seen: map<string, Stat>, rounds: seq<Round>, dir: seq<Entry>)
    requires rounds != [] && QuietRounds(seen, rounds, dir)
    ensures QuietRound(seen, rounds[0], dir) && QuietRounds(ListingMap(Infos(dir)), rounds[1..], dir)
  {
    hide QuietRound, ListingMap, Infos;
    assert QuietRound(seen, rounds[0], dir);
    forall n | 0 <= n < |rounds[1..]| ensures QuietRound(ListingMap(Infos(dir)), rounds[1..][n], dir) {
      assert rounds[1..][n] == rounds[n + 1];
    }
  }

  lemma NoneEscapes(entries: seq<Entry>, input: nat -> FileInput)
    requires forall k :: 0 <= k < |entries| ==> input(k) == FileInput(Some(entries[k].data), NO_FAULTS)
    requires |Infos(entries)| == |entries|
    ensures !RoundEscapes(Infos(entries), input)
  {}

  // ---- interleaving ----

  /** What the inference workers do in a run, and what the ingestion worker does. */
  function WorkerPart(steps: seq<Step>): seq<Step> {
    if steps == [] then [] else (if IsWorkerStep(steps[0]) then [steps[0]] else []) + WorkerPart(steps[1..])
  }

  function IngestPart(steps: seq<Step>): seq<Step> {
    if steps == [] then [] else (if IsWorkerStep(steps[0]) then [] else [steps[0]]) + IngestPart(steps[1..])
  }

  /** What is left of the entries when `k` of the four steps of the first one are done. */
  function Rest(es: seq<Entry>, k: nat, meta: Id): seq<Step>
    requires k < 4 && (k > 0 ==> es != [])
  {
    if es == [] then [] else EntrySteps(es[0], meta)[k..] + EntriesSteps(es[1..], meta)
  }

  lemma RestAdvances(es: seq<Entry>, k: nat, meta: Id)
    requires k < 4 && es != []
    ensures Rest(es, k, meta)
              == [EntrySteps(es[0], meta)[k]] + (if k == 3 then Rest(es[1..], 0, meta) else Rest(es, k + 1, meta))
  {
    if k == 3 {
      assert es[1..] != [] ==> EntrySteps(es[1..][0], meta)[0..] == EntrySteps(es[1..][0], meta);
    }
  }

  lemma NothingLeftIff(es: seq<Entry>, k: nat, meta: Id)
    requires k < 4 && (k > 0 ==> es != [])
    ensures Rest(es, k, meta) == [] <==> es == []
  {
    if es != [] { RestAdvances(es, k, meta); }
  }

  // ---- several polls ----

  lemma {:induction false} PartsConcat(a: seq<Step>, b: seq<Step>)
    ensures IngestPart(a + b) == IngestPart(a) + IngestPart(b)
  {
    if a == [] {
      assert a + b == b;
    } else {
      assert (a + b)[1..] == a[1..] + b;
      PartsConcat(a[1..], b);
    }
  }

  lemma {:induction false} PolledConcat(seen: map<string, Stat>, dir: seq<Entry>, a: nat, b: nat)
    requires a > 0
    ensures Polled(seen, dir, a + b) == Polled(seen, dir, a) + Polled(ListingMap(Infos(dir)), dir, b)
    decreases a
  {
    hide ListingMap, Infos, StableEntries;
    var again := ListingMap(Infos(dir));
    if a == 1 {
      assert Polled(seen, dir, 1) == StableEntries(seen, dir) + Polled(again, dir, 0);
    } else {
      PolledConcat(again, dir, a - 1, b);
    }
  }

  /** From the second poll on everything is polled, and never anything else. */
  lemma {:induction false} PolledAgain(dir: seq<Entry>, n: nat)
    requires DistinctEntries(dir)
    ensures n > 0 ==> Polled(ListingMap(Infos(dir)), dir, n) == dir + Polled(ListingMap(Infos(dir)), dir, n - 1)
  {
    SecondPollSeesAll(dir);
  }

  lemma PolledHasAll(seen: map<string, Stat>, dir: seq<Entry>, n: nat)
    requires DistinctEntries(dir) && n >= 2
    ensures forall e :: e in dir ==> e in Polled(seen, dir, n)
  {
    hide ListingMap, Infos, StableEntries, DistinctEntries;
    PolledAgain(dir, n - 1);
  }

  lemma {:induction false} PolledFromDir(dir: seq<Entry>, n: nat)
    requires DistinctEntries(dir)
    ensures forall e :: e in Polled(ListingMap(Infos(dir)), dir, n) ==> e in dir
    decreases n
  {
    hide ListingMap, Infos, StableEntries, DistinctEntries;
    if n > 0 {
      PolledAgain(dir, n);
      PolledFromDir(dir, n - 1);
    }
  }

  /** The ingestion steps of these runs, read off the loop of the worker. */
  lemma PollsAreEntries(seen: map<string, Stat>, rounds: seq<Round>, dir: seq<Entry>, meta: Id, polls: seq<Step>)
    requires DistinctEntries(dir) && QuietRounds(seen, rounds, dir)
    requires IngestPart(polls) + [CloseSession] == RoundsSteps(seen, rounds, meta)
    ensures IngestPart(polls) == EntriesSteps(Polled(seen, dir, |rounds|), meta)
  {
    hide DistinctEntries, QuietRounds, IngestPart, RoundsSteps, EntriesSteps, Polled;
    RoundsAreEntries(seen, rounds, dir, meta);
    var a, b := IngestPart(polls), EntriesSteps(Polled(seen, dir, |rounds|), meta);
    assert a == (a + [CloseSession])[..|a|] && b == (b + [CloseSession])[..|b|];
  }

  lemma QuietPrefix(seen: map<string, Stat>, rounds: seq<Round>, later: seq<Round>, dir: seq<Entry>)
    requires QuietRounds(seen, rounds + later, dir)
    ensures QuietRounds(seen, rounds, dir)
  {
    hide QuietRound, ListingMap, Infos;
    forall n | 0 <= n < |rounds| ensures QuietRound(if n == 0 then seen else ListingMap(Infos(dir)), rounds[n], dir) {
      assert (rounds + later)[n] == rounds[n];
    }
  }

  /** The same for further rounds on the same connection. */
  lemma LaterPollsAreEntries(seen: map<string, Stat>, rounds: seq<Round>, later: seq<Round>, dir: seq<Entry>, meta: Id,
                             polls: seq<Step>, more: seq<Step>)
    requires DistinctEntries(dir) && QuietRounds(seen, rounds, dir) && QuietRounds(seen, rounds + later, dir)
    requires rounds != []
    requires IngestPart(polls) + [CloseSession] == RoundsSteps(seen, rounds, meta)
    requires IngestPart(polls + more) + [CloseSession] == RoundsSteps(seen, rounds + later, meta)
    ensures IngestPart(more) == EntriesSteps(Polled(ListingMap(Infos(dir)), dir, |later|), meta)
  {
    hide DistinctEntries, QuietRounds, IngestPart, RoundsSteps, EntriesSteps, Polled, ListingMap, Infos;
    PollsAreEntries(seen, rounds, dir, meta, polls);
    PollsAreEntries(seen, rounds + later, dir, meta, polls + more);
    var first, rest := Polled(seen, dir, |rounds|), Polled(ListingMap(Infos(dir)), dir, |later|);
    PolledConcat(seen, dir, |rounds|, |later|);
    EntriesConcat(first, rest, meta);
    PartsConcat(polls, more);
    var a := IngestPart(polls);
    assert IngestPart(more) == (a + IngestPart(more))[|a|..];
    assert EntriesSteps(rest, meta) == (a + EntriesSteps(rest, meta))[|a|..];
  }
}
