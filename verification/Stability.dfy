/** Stable-file detection: `_detect_stable_files` and what its `seen_files` dictionary remembers. */
module Stability {
  import opened Common

  datatype FileInfo = FileInfo(filename: string, remotePath: string, size: nat, modifiedAt: int)

  /** A `_SeenFile`. */
  datatype Stat = Stat(size: nat, modifiedAt: int)

  function StatOf(f: FileInfo): Stat { Stat(f.size, f.modifiedAt) }

  predicate DistinctNames(files: seq<FileInfo>) {
    forall i, k :: 0 <= i < k < |files| ==> files[i].filename != files[k].filename
  }

  /** The names of a listing with their size and time; the last entry of a name counts. */
  function ListingMap(files: seq<FileInfo>): map<string, Stat> {
    if files == [] then map[]
    else ListingMap(files[..|files| - 1])[files[|files| - 1].filename := StatOf(files[|files| - 1])]
  }

  predicate Unchanged(seen: map<string, Stat>, f: FileInfo) {
    f.filename in seen && seen[f.filename] == StatOf(f)
  }

  /** The entries that repeat what was known when the loop reached them, in listing order. */
  function Repeated(seen: map<string, Stat>, files: seq<FileInfo>): seq<FileInfo> {
    if files == [] then []
    else
      var front, last := files[..|files| - 1], files[|files| - 1];
      Repeated(seen, front) + (if Unchanged(seen + ListingMap(front), last) then [last] else [])
  }

  class SeenFiles {
    var files: map<string, Stat>

    constructor ()
      ensures files == map[]
    {
      files := map[];
    }
  }

  /** A failed listing reports nothing and forgets nothing; a listing replaces all that was remembered. */
  method DetectStableFiles(listing: Option<seq<FileInfo>>, seen: SeenFiles) returns (stable: seq<FileInfo>)
    modifies seen
    ensures seen.files == if listing.None? then old(seen.files) else ListingMap(listing.value)
    ensures stable == if listing.None? then [] else Repeated(old(seen.files), listing.value)
  {
    if listing.None? {
      return [];
    }
    hide ListingMap, Repeated, Unchanged;
    var current := listing.value;
    stable := [];
    ListingPrefix(seen.files, current, 0);
    var names: set<string> := {};
    for i := 0 to |current|
      invariant names == ListingMap(current[..i]).Keys
      invariant seen.files == old(seen.files) + ListingMap(current[..i])
      invariant stable == Repeated(old(seen.files), current[..i])
    {
      var f := current[i];
      ListingPrefix(old(seen.files), current, i + 1);
      ExtendSum(old(seen.files), ListingMap(current[..i]), f.filename, StatOf(f));
      names := names + {f.filename};
      if f.filename !in seen.files {
        seen.files := seen.files[f.filename := StatOf(f)];
      } else if seen.files[f.filename] == StatOf(f) {
        stable := stable + [f];
      } else {
        seen.files := seen.files[f.filename := StatOf(f)];
      }
    }
    assert current[..|current|] == current;
    PurgeVanished(seen, names);
    RestrictSum(old(seen.files), ListingMap(current));
  }

  lemma RestrictSum(a: map<string, Stat>, b: map<string, Stat>)
    ensures (map n | n in a + b && n in b.Keys :: (a + b)[n]) == b
  {}

  lemma ExtendSum(a: map<string, Stat>, b: map<string, Stat>, n: string, s: Stat)
    ensures (a + b)[n := s] == a + b[n := s]
    ensures n in a + b && (a + b)[n] == s ==> a + b == a + b[n := s]
  {}

  lemma ListingPrefix(seen: map<string, Stat>, files: seq<FileInfo>, n: nat)
    requires n <= |files|
    ensures n == 0 ==> ListingMap(files[..n]) == map[] && Repeated(seen, files[..n]) == []
    ensures n > 0 ==>
      var before, last := ListingMap(files[..n - 1]), files[n - 1];
      var known := seen + before;
      && ListingMap(files[..n]) == before[last.filename := StatOf(last)]
      && Repeated(seen, files[..n]) == Repeated(seen, files[..n - 1])
           + (if last.filename in known && known[last.filename] == StatOf(last) then [last] else [])
  {
    if n > 0 { assert files[..n][..n - 1] == files[..n - 1]; }
  }

  /** Drops the files that are no longer in the directory, one key at a time. */
  method PurgeVanished(seen: SeenFiles, names: set<string>)
    modifies seen
    ensures seen.files == map n | n in old(seen.files) && n in names :: old(seen.files)[n]
  {
    var left := seen.files.Keys;
    while left != {}
      invariant left <= old(seen.files).Keys
      invariant seen.files == map n | n in old(seen.files) && (n in names || n in left) :: old(seen.files)[n]
    {
      var n :| n in left;
      if n !in names {
        seen.files := seen.files - {n};
      }
      left := left - {n};
    }
  }

  // ---- the simple rule ----

  function UnchangedOf(seen: map<string, Stat>, files: seq<FileInfo>): seq<FileInfo> {
    if files == [] then []
    else UnchangedOf(seen, files[..|files| - 1])
         + (if Unchanged(seen, files[|files| - 1]) then [files[|files| - 1]] else [])
  }

  lemma {:induction false} ListingMapNames(files: seq<FileInfo>, n: string)
    ensures n in ListingMap(files) <==> exists k :: 0 <= k < |files| && files[k].filename == n
  {
    if files != [] {
      var front := files[..|files| - 1];
      ListingMapNames(front, n);
      if n in ListingMap(front) {
        var k :| 0 <= k < |front| && front[k].filename == n;
        assert files[k].filename == n;
      }
      if exists k :: 0 <= k < |files| && files[k].filename == n {
        var k :| 0 <= k < |files| && files[k].filename == n;
        if k < |front| { assert front[k].filename == n; }
      }
    }
  }

  /** With distinct names the map of a listing is exactly its entries. */
  lemma {:induction false} ListingMapEntry(files: seq<FileInfo>, f: FileInfo)
    requires DistinctNames(files)
    ensures Unchanged(ListingMap(files), f)
      <==> exists g :: g in files && g.filename == f.filename && g.size == f.size && g.modifiedAt == f.modifiedAt
  {
    if files != [] {
      var front, last := files[..|files| - 1], files[|files| - 1];
      ListingMapEntry(front, f);
      assert files == front + [last];
      if last.filename == f.filename {
        forall g | g in files && g.filename == f.filename ensures g == last {
          var k :| 0 <= k < |files| && files[k] == g;
        }
      } else {
        forall g ensures g in front && g.filename == f.filename <==> g in files && g.filename == f.filename {}
      }
    }
  }

  /** With distinct names the incremental loop compares each entry with the listing before this one only. */
  lemma {:induction false} IncrementalIsSimple(seen: map<string, Stat>, files: seq<FileInfo>)
    requires DistinctNames(files)
    ensures Repeated(seen, files) == UnchangedOf(seen, files)
  {
    if files != [] {
      var front, last := files[..|files| - 1], files[|files| - 1];
      IncrementalIsSimple(seen, front);
      ListingMapNames(front, last.filename);
      assert last.filename !in ListingMap(front);
    }
  }

  lemma {:induction false} UnchangedMember(seen: map<string, Stat>, files: seq<FileInfo>, f: FileInfo)
    ensures f in UnchangedOf(seen, files) <==> f in files && Unchanged(seen, f)
  {
    if files != [] {
      var front, last := files[..|files| - 1], files[|files| - 1];
      UnchangedMember(seen, front, f);
      assert files == front + [last];
    }
  }

  // ---- runs of polls ----

  /** One turn of the worker's loops, as far as `seen_files` can tell. */
  datatype Turn = Listed(files: seq<FileInfo>) | ListingFailed | Reconnected

  /** `seen_files` lives outside both loops: a reconnect keeps it. */
  function SeenAfter(turns: seq<Turn>): map<string, Stat> {
    if turns == [] then map[]
    else match turns[|turns| - 1]
      case Listed(files) => ListingMap(files)
      case _ => SeenAfter(turns[..|turns| - 1])
  }

  function LastListing(turns: seq<Turn>): Option<seq<FileInfo>> {
    if turns == [] then None
    else match turns[|turns| - 1]
      case Listed(files) => Some(files)
      case _ => LastListing(turns[..|turns| - 1])
  }

  lemma {:induction false} SeenIsLastListing(turns: seq<Turn>)
    ensures SeenAfter(turns) == if LastListing(turns).Some? then ListingMap(LastListing(turns).value) else map[]
  {
    if turns != [] && !turns[|turns| - 1].Listed? {
      SeenIsLastListing(turns[..|turns| - 1]);
    }
  }

  /**
   After any history of polls, failed listings and reconnects, a file of a new listing is reported
   stable exactly when the last successful listing held the same name, size and time.
   */
  lemma StableIffRepeated(turns: seq<Turn>, files: seq<FileInfo>, f: FileInfo)
    requires DistinctNames(files)
    requires LastListing(turns).Some? ==> DistinctNames(LastListing(turns).value)
    ensures f in Repeated(SeenAfter(turns), files)
      <==> f in files && LastListing(turns).Some?
           && exists g :: g in LastListing(turns).value
                && g.filename == f.filename && g.size == f.size && g.modifiedAt == f.modifiedAt
  {
    IncrementalIsSimple(SeenAfter(turns), files);
    UnchangedMember(SeenAfter(turns), files, f);
    SeenIsLastListing(turns);
    if LastListing(turns).Some? {
      ListingMapEntry(LastListing(turns).value, f);
    }
  }
}
