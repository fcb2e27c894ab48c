/** What the ingestion worker remembers and reports over any schedule of connections, polls and failures. */
module SeenHistory {
  import opened Common
  import opened Stability
  import opened Worker

  // ---- the history of `seen_files` behind a worker ----

  function RoundTurn(r: Round): Turn {
    if r.listing.None? then ListingFailed else Listed(r.listing.value)
  }

  function RoundsTurns(seen: map<string, Stat>, rounds: seq<Round>): seq<Turn>
    decreases |rounds|
  {
    if rounds == [] then []
    else [RoundTurn(rounds[0])]
         + (if RoundEscapes(Reported(seen, rounds[0]), rounds[0].input) then []
            else RoundsTurns(Remembered(seen, rounds[0]), rounds[1..]))
  }

  function WorkerTurns(seen: map<string, Stat>, connections: seq<Connection>): seq<Turn>
    decreases |connections|
  {
    if connections == [] then []
    else match connections[0]
      case Connected(_, rounds) =>
        OneConnection(seen, connections[0]) + WorkerTurns(RoundsSeen(seen, rounds), connections[1..])
      case _ => OneConnection(seen, connections[0]) + WorkerTurns(seen, connections[1..])
  }

  lemma {:induction false} RoundsHistory(turns: seq<Turn>, rounds: seq<Round>)
    ensures RoundsSeen(SeenAfter(turns), rounds) == SeenAfter(turns + RoundsTurns(SeenAfter(turns), rounds))
    decreases |rounds|
  {
    hide Remembered, Reported, RoundEscapes, RoundTurn, SeenAfter;
    if rounds == [] {
      assert turns + [] == turns;
    } else {
      var seen, turn := SeenAfter(turns), RoundTurn(rounds[0]);
      AddRound(turns, rounds[0]);
      if RoundEscapes(Reported(seen, rounds[0]), rounds[0].input) {
        assert RoundsTurns(seen, rounds) == [turn];
      } else {
        RoundsHistory(turns + [turn], rounds[1..]);
        assert turns + RoundsTurns(seen, rounds)
            == turns + [turn] + RoundsTurns(Remembered(seen, rounds[0]), rounds[1..]);
      }
    }
  }

  lemma AddRound(turns: seq<Turn>, r: Round)
    ensures SeenAfter(turns + [RoundTurn(r)]) == Remembered(SeenAfter(turns), r)
  {
    assert (turns + [RoundTurn(r)])[..|turns|] == turns;
    hide ListingMap;
  }

  /** What the worker remembers is what its history of polls and reconnects says: `StableIffRepeated` applies to it. */
  lemma {:induction false} WorkerHistory(turns: seq<Turn>, connections: seq<Connection>)
    ensures WorkerSeen(SeenAfter(turns), connections) == SeenAfter(turns + WorkerTurns(SeenAfter(turns), connections))
    decreases |connections|
  {
    hide SeenAfter, RoundsSeen, OneConnection;
    if connections == [] {
      assert turns + [] == turns;
    } else {
      var seen := SeenAfter(turns);
      var mine := OneConnection(seen, connections[0]);
      ConnectionHistory(turns, connections[0]);
      WorkerTurnsUnfold(turns, connections);
      hide WorkerTurns;
      WorkerHistory(turns + mine, connections[1..]);
      assert turns + (mine + WorkerTurns(SeenAfter(turns + mine), connections[1..]))
        == (turns + mine) + WorkerTurns(SeenAfter(turns + mine), connections[1..]);
    }
  }

  lemma WorkerTurnsUnfold(turns: seq<Turn>, connections: seq<Connection>)
    requires connections != []
    ensures var mine := OneConnection(SeenAfter(turns), connections[0]);
            WorkerTurns(SeenAfter(turns), connections) == mine + WorkerTurns(SeenAfter(turns + mine), connections[1..])
  {
    ConnectionHistory(turns, connections[0]);
    hide SeenAfter, RoundsSeen, OneConnection;
  }

  lemma ConnectionHistory(turns: seq<Turn>, c: Connection)
    ensures SeenAfter(turns + OneConnection(SeenAfter(turns), c))
      == if c.Connected? then RoundsSeen(SeenAfter(turns), c.rounds) else SeenAfter(turns)
  {
    var seen := SeenAfter(turns);
    var polls := if c.Connected? then RoundsTurns(seen, c.rounds) else [];
    if c.Connected? { RoundsHistory(turns, c.rounds); } else { assert turns + polls == turns; }
    AddReconnect(turns + polls);
    assert turns + OneConnection(seen, c) == turns + polls + [Reconnected];
  }

  function OneConnection(seen: map<string, Stat>, c: Connection): seq<Turn> {
    (if c.Connected? then RoundsTurns(seen, c.rounds) else []) + [Reconnected]
  }

  lemma AddReconnect(turns: seq<Turn>)
    ensures SeenAfter(turns + [Reconnected]) == SeenAfter(turns)
  {
    assert (turns + [Reconnected])[..|turns|] == turns;
  }

  // ---- the listings a schedule contains ----

  /** No successful listing of the schedule has a name twice. */
  ghost predicate DistinctSchedule(connections: seq<Connection>) {
    forall c: nat :: c < |connections| && connections[c].Connected? ==> DistinctListings(connections[c].rounds)
  }

  ghost predicate DistinctListings(rounds: seq<Round>) {
    forall k: nat :: k < |rounds| && rounds[k].listing.Some? ==> DistinctNames(rounds[k].listing.value)
  }

  ghost predicate DistinctTurns(turns: seq<Turn>) {
    forall k: nat :: k < |turns| && turns[k].Listed? ==> DistinctNames(turns[k].files)
  }

  lemma {:induction false} RoundsAreDistinct(seen: map<string, Stat>, rounds: seq<Round>)
    requires DistinctListings(rounds)
    ensures DistinctTurns(RoundsTurns(seen, rounds))
    decreases |rounds|
  {
    hide Remembered, Reported, RoundEscapes, DistinctNames;
    if rounds != [] {
      RoundsAreDistinct(Remembered(seen, rounds[0]), rounds[1..]);
    }
  }

  lemma {:induction false} WorkerIsDistinct(seen: map<string, Stat>, connections: seq<Connection>)
    requires DistinctSchedule(connections)
    ensures DistinctTurns(WorkerTurns(seen, connections))
    decreases |connections|
  {
    hide RoundsTurns, RoundsSeen, DistinctNames;
    if connections != [] {
      var c := connections[0];
      var left := if c.Connected? then RoundsSeen(seen, c.rounds) else seen;
      if c.Connected? { RoundsAreDistinct(seen, c.rounds); }
      WorkerIsDistinct(left, connections[1..]);
    }
  }

  lemma {:induction false} LastIsDistinct(turns: seq<Turn>)
    requires DistinctTurns(turns) && LastListing(turns).Some?
    ensures DistinctNames(LastListing(turns).value)
  {
    if !turns[|turns| - 1].Listed? { LastIsDistinct(turns[..|turns| - 1]); }
  }

  /** The listing holds the file with the same size and time. */
  ghost predicate Holds(listing: Option<seq<FileInfo>>, f: FileInfo) {
    && listing.Some?
    && exists g :: g in listing.value && g.filename == f.filename && g.size == f.size && g.modifiedAt == f.modifiedAt
  }

  /**
   The worker as a whole, from its start: after any schedule of connections, failed listings and escaping
   exceptions, its dictionary has a file exactly as the last successful listing has it, and the next poll
   reports a file stable exactly when it repeats that listing.
   */
  lemma WorkerReportsRepeats(connections: seq<Connection>, next: Round, f: FileInfo)
    requires DistinctSchedule(connections) && (next.listing.Some? ==> DistinctNames(next.listing.value))
    ensures var last := LastListing(WorkerTurns(map[], connections));
            var seen := WorkerSeen(map[], connections);
            && (f.filename in seen && seen[f.filename].size == f.size && seen[f.filename].modifiedAt == f.modifiedAt
                <==> Holds(last, f))
            && (f in Reported(seen, next) <==> next.listing.Some? && f in next.listing.value && Holds(last, f))
  {
    var turns := WorkerTurns(map[], connections);
    assert SeenAfter([]) == map[] && [] + turns == turns;
    WorkerHistory([], connections);
    WorkerIsDistinct(map[], connections);
    if LastListing(turns).Some? {
      LastIsDistinct(turns);
      ListingMapEntry(LastListing(turns).value, f);
    }
    SeenIsLastListing(turns);
    hide WorkerTurns, WorkerSeen, SeenAfter, LastListing, DistinctTurns, DistinctSchedule, ListingMap, Repeated;
    if next.listing.Some? {
      StableIffRepeated(turns, next.listing.value, f);
    }
  }
}
