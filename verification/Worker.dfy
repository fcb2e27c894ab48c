/** The ingestion worker: one file, one poll, one connection, and the loop over connections. */
module Worker {
  import opened Common
  import opened Protocol
  import opened Traces
  import opened Stability
  import opened Services

  /** What reading a stable file and ingesting it run into; `None` when the file cannot be read. */
  datatype FileInput = FileInput(content: Option<Bytes>, faults: IngestFaults)

  /** One turn of the inner loop: the listing, and what happens to the k-th stable file. */
  datatype Round = Round(listing: Option<seq<FileInfo>>, input: nat -> FileInput)

  /** One turn of the outer loop: the connection fails, or no model is registered, or polls run until an exception. */
  datatype Connection = Refused | NoModel | Connected(meta: Id, rounds: seq<Round>)

  /** The steps one file takes; a failing commit of `mark_failed` escapes the handler. */
  function FileSteps(f: FileInfo, input: FileInput, meta: Id): seq<Step> {
    if input.content.None? then []
    else IngestTrace(f.remotePath, f.filename, input.content.value, meta, input.faults)
  }

  predicate Escapes(input: FileInput) {
    input.content.Some? && !IsTiff(input.content.value) && !input.faults.commits
  }

  function FilesSteps(stable: seq<FileInfo>, input: nat -> FileInput, meta: Id, from: nat): seq<Step>
    requires from <= |stable|
    decreases |stable| - from
  {
    if from == |stable| then []
    else FileSteps(stable[from], input(from), meta)
         + (if Escapes(input(from)) then [] else FilesSteps(stable, input, meta, from + 1))
  }

  predicate RoundEscapes(stable: seq<FileInfo>, input: nat -> FileInput) {
    exists k :: 0 <= k < |stable| && Escapes(input(k))
  }

  function Reported(seen: map<string, Stat>, round: Round): seq<FileInfo> {
    if round.listing.None? then [] else Repeated(seen, round.listing.value)
  }

  function Remembered(seen: map<string, Stat>, round: Round): map<string, Stat> {
    if round.listing.None? then seen else ListingMap(round.listing.value)
  }

  /** The polls of one connection up to the first exception, then `session.close()`. */
  function RoundsSteps(seen: map<string, Stat>, rounds: seq<Round>, meta: Id): seq<Step>
    decreases |rounds|
  {
    if rounds == [] then [CloseSession]
    else
      var stable := Reported(seen, rounds[0]);
      FilesSteps(stable, rounds[0].input, meta, 0)
      + (if RoundEscapes(stable, rounds[0].input) then [CloseSession]
         else RoundsSteps(Remembered(seen, rounds[0]), rounds[1..], meta))
  }

  function RoundsSeen(seen: map<string, Stat>, rounds: seq<Round>): map<string, Stat>
    decreases |rounds|
  {
    if rounds == [] then seen
    else if RoundEscapes(Reported(seen, rounds[0]), rounds[0].input) then Remembered(seen, rounds[0])
    else RoundsSeen(Remembered(seen, rounds[0]), rounds[1..])
  }

  function WorkerSteps(seen: map<string, Stat>, connections: seq<Connection>): seq<Step>
    decreases |connections|
  {
    if connections == [] then []
    else match connections[0]
      case Refused => WorkerSteps(seen, connections[1..])
      case NoModel => [CloseSession] + WorkerSteps(seen, connections[1..])
      case Connected(meta, rounds) =>
        RoundsSteps(seen, rounds, meta) + WorkerSteps(RoundsSeen(seen, rounds), connections[1..])
  }

  function WorkerSeen(seen: map<string, Stat>, connections: seq<Connection>): map<string, Stat>
    decreases |connections|
  {
    if connections == [] then seen
    else match connections[0]
      case Connected(_, rounds) => WorkerSeen(RoundsSeen(seen, rounds), connections[1..])
      case _ => WorkerSeen(seen, connections[1..])
  }

  class IngestionWorker {
    const service: IngestionService
    const seen: SeenFiles

    constructor (service: IngestionService)
      ensures this.service == service && fresh(seen) && seen.files == map[]
    {
      this.service := service;
      seen := new SeenFiles();
    }

    /** `_process_file`: every failure is swallowed except a failing commit of `mark_failed`. */
    method ProcessFile(f: FileInfo, input: FileInput, meta: Id) returns (escaped: bool)
      requires service.Valid()
      modifies service.db, service.session, service.store, service.queue
      ensures service.Valid()
      ensures escaped <==> Escapes(input)
      ensures service.World() == Run(old(service.World()), FileSteps(f, input, meta))
    {
      if input.content.None? {
        return false;
      }
      var data := input.content.value;
      ghost var w := service.World();
      var outcome := service.IngestFile(f.remotePath, f.filename, data, meta, input.faults);
      if outcome.Unsupported? {
        RejectionRun(w, f.remotePath, f.filename, data, meta, input.faults);
        service.MarkFailed(f.remotePath, f.filename, input.faults.commits);
      }
      escaped := outcome.Unsupported? && !input.faults.commits;
    }

    method ProcessFiles(stable: seq<FileInfo>, input: nat -> FileInput, meta: Id) returns (escaped: bool)
      requires service.Valid()
      modifies service.db, service.session, service.store, service.queue
      ensures service.Valid()
      ensures escaped <==> RoundEscapes(stable, input)
      ensures service.World() == Run(old(service.World()), FilesSteps(stable, input, meta, 0))
    {
      NoFilesLeft(stable, input, meta);
      hide Run, FilesSteps, FileSteps, Escapes;
      ghost var end := Run(service.World(), FilesSteps(stable, input, meta, 0));
      for k := 0 to |stable|
        invariant service.Valid()
        invariant forall i :: 0 <= i < k ==> !Escapes(input(i))
        invariant Run(service.World(), FilesSteps(stable, input, meta, k)) == end
      {
        FilesUnfold(service.World(), stable, input, meta, k);
        escaped := ProcessFile(stable[k], input(k), meta);
        if escaped {
          return;
        }
      }
      RunNothing(service.World());
      return false;
    }

    /** The inner loop and the `finally` that closes the session. */
    method PollUntilException(rounds: seq<Round>, meta: Id)
      requires service.Valid() && (seen as object) !in {service.db, service.session, service.store, service.queue}
      modifies service.db, service.session, service.store, service.queue, seen
      ensures service.Valid()
      ensures seen.files == RoundsSeen(old(seen.files), rounds)
      ensures service.World() == Run(old(service.World()), RoundsSteps(old(seen.files), rounds, meta))
    {
      hide Run;
      ghost var end := Run(service.World(), RoundsSteps(seen.files, rounds, meta));
      ghost var remembered := RoundsSeen(seen.files, rounds);
      var k, escaped := 0, false;
      while k < |rounds| && !escaped
        invariant k <= |rounds| && service.Valid()
        invariant if escaped then Run(service.World(), [CloseSession]) == end && seen.files == remembered
                  else Run(service.World(), RoundsSteps(seen.files, rounds[k..], meta)) == end
                       && RoundsSeen(seen.files, rounds[k..]) == remembered
        decreases |rounds| - k, !escaped
      {
        RoundsUnfold(service.World(), seen.files, rounds, meta, k);
        var stable := DetectStableFiles(rounds[k].listing, seen);
        escaped := ProcessFiles(stable, rounds[k].input, meta);
        k := k + 1;
      }
      RunClose(service.World());
      service.session.Close();
    }

    /** `main`: reconnect for ever; here, as often as the outside world lets it. */
    method RunWorker(connections: seq<Connection>)
      requires service.Valid() && (seen as object) !in {service.db, service.session, service.store, service.queue}
      modifies service.db, service.session, service.store, service.queue, seen
      ensures service.Valid()
      ensures seen.files == WorkerSeen(old(seen.files), connections)
      ensures service.World() == Run(old(service.World()), WorkerSteps(old(seen.files), connections))
    {
      hide Run;
      ghost var end := Run(service.World(), WorkerSteps(seen.files, connections));
      ghost var remembered := WorkerSeen(seen.files, connections);
      for k := 0 to |connections|
        invariant service.Valid()
        invariant Run(service.World(), WorkerSteps(seen.files, connections[k..])) == end
        invariant WorkerSeen(seen.files, connections[k..]) == remembered
      {
        WorkerUnfold(service.World(), seen.files, connections, k);
        match connections[k]
        case Refused =>
        case NoModel =>
          RunClose(service.World());
          service.session.Close();
        case Connected(meta, rounds) =>
          PollUntilException(rounds, meta);
      }
      RunNothing(service.World());
    }
  }

  // ---- what is left to run, one turn at a time ----

  lemma NoFilesLeft(stable: seq<FileInfo>, input: nat -> FileInput, meta: Id)
    ensures FilesSteps(stable, input, meta, |stable|) == []
  {}

  lemma FilesUnfold(w: World, stable: seq<FileInfo>, input: nat -> FileInput, meta: Id, k: nat)
    requires k < |stable|
    ensures var n := Run(w, FileSteps(stable[k], input(k), meta));
            Run(w, FilesSteps(stable, input, meta, k))
              == if Escapes(input(k)) then n else Run(n, FilesSteps(stable, input, meta, k + 1))
  {
    RunConcat(w, FileSteps(stable[k], input(k), meta),
              if Escapes(input(k)) then [] else FilesSteps(stable, input, meta, k + 1));
    RunNothing(Run(w, FileSteps(stable[k], input(k), meta)));
  }

  lemma RoundsUnfold(w: World, seen: map<string, Stat>, rounds: seq<Round>, meta: Id, k: nat)
    requires k < |rounds|
    ensures var stable := Reported(seen, rounds[k]);
            var n := Run(w, FilesSteps(stable, rounds[k].input, meta, 0));
            var left := Remembered(seen, rounds[k]);
            var out := RoundEscapes(stable, rounds[k].input);
            && Run(w, RoundsSteps(seen, rounds[k..], meta))
               == (if out then Run(n, [CloseSession]) else Run(n, RoundsSteps(left, rounds[k + 1..], meta)))
            && RoundsSeen(seen, rounds[k..]) == if out then left else RoundsSeen(left, rounds[k + 1..])
  {
    var stable := Reported(seen, rounds[k]);
    assert rounds[k..][0] == rounds[k] && rounds[k..][1..] == rounds[k + 1..];
    RunConcat(w, FilesSteps(stable, rounds[k].input, meta, 0),
              if RoundEscapes(stable, rounds[k].input) then [CloseSession]
              else RoundsSteps(Remembered(seen, rounds[k]), rounds[k + 1..], meta));
  }

  lemma WorkerUnfold(w: World, seen: map<string, Stat>, connections: seq<Connection>, k: nat)
    requires k < |connections|
    ensures var c, rest := connections[k], connections[k + 1..];
            var left := if c.Connected? then RoundsSeen(seen, c.rounds) else seen;
            var n := if c.Connected? then Run(w, RoundsSteps(seen, c.rounds, c.meta))
                     else if c.NoModel? then Run(w, [CloseSession]) else w;
            && Run(w, WorkerSteps(seen, connections[k..])) == Run(n, WorkerSteps(left, rest))
            && WorkerSeen(seen, connections[k..]) == WorkerSeen(left, rest)
  {
    var rest := connections[k + 1..];
    assert connections[k..][0] == connections[k] && connections[k..][1..] == rest;
    match connections[k]
    case Refused =>
    case NoModel => RunConcat(w, [CloseSession], WorkerSteps(seen, rest));
    case Connected(meta, rounds) =>
      RunConcat(w, RoundsSteps(seen, rounds, meta), WorkerSteps(RoundsSeen(seen, rounds), rest));
  }

  lemma RunNothing(w: World)
    ensures Run(w, []) == w
  {}

  lemma RunClose(w: World)
    ensures Run(w, [CloseSession]) == Drop(w)
  {
    assert Run(w, [CloseSession]) == Run(Next(w, CloseSession), []);
  }

  lemma RejectionRun(w: World, path: string, filename: string, data: Bytes, meta: Id, f: IngestFaults)
    requires w.ingest.Idle? && !IsTiff(data)
    ensures Run(w, IngestTrace(path, filename, data, meta, f))
      == if f.commits then CommitRejection(w.(ingest := Rejecting(path, filename))) else Drop(w)
  {
    RunFour(w, Begin(path, filename, data, meta), Upload(f.upload), Enqueue(f.enqueue), Commit(f.commits));
    AfterBegin(w, path, filename, data, meta);
    var r := w.(ingest := Rejecting(path, filename));
    assert Next(r, Upload(f.upload)) == r && Next(r, Enqueue(f.enqueue)) == r;
  }
}
