/**
 The numbers of feature branches: read from existing names, advanced by one, printed into the next
 name, and read again by the next run of the script.
 */
module FeatureNumbers {
  import opened FeatureNames

  // ---- which names carry a number, and which number ----

  ghost predicate AllDigits(s: string) {
    forall k :: 0 <= k < |s| ==> IsDigit(s[k])
  }

  /** The length of the longest prefix of digits: `^[0-9]+`. */
  function Lead(name: string): (n: nat)
    ensures n <= |name|
    ensures forall k :: 0 <= k < n ==> IsDigit(name[k])
    ensures n < |name| ==> !IsDigit(name[n])
  {
    if name != "" && IsDigit(name[0]) then Lead(name[1..]) + 1 else 0
  }

  /** `^[0-9]{3,}-` */
  predicate Sequential(name: string) {
    3 <= Lead(name) < |name| && name[Lead(name)] == '-'
  }

  /** `^[0-9]{8}-[0-9]{6}-` */
  predicate Stamped(name: string) {
    Lead(name) == 8 && |name| > 15 && name[8] == '-' && Lead(name[9..]) == 6 && name[15] == '-'
  }

  predicate Counted(name: string) { Sequential(name) && !Stamped(name) }

  function DigitValue(c: char): nat
    requires IsDigit(c)
  {
    (c - '0') as nat
  }

  function Decimal(s: string): nat
    requires forall k :: 0 <= k < |s| ==> IsDigit(s[k])
  {
    if s == "" then 0 else 10 * Decimal(s[..|s| - 1]) + DigitValue(s[|s| - 1])
  }

  const TWO_63: int := 0x8000_0000_0000_0000
  const TWO_64: int := 0x1_0000_0000_0000_0000

  /** Shell arithmetic: 64 bits, two's complement. */
  function Wrap(n: int): int {
    (n + TWO_63) % TWO_64 - TWO_63
  }

  /** `$((10#...))` over the leading digits. */
  function Number(name: string): int {
    Wrap(Decimal(name[..Lead(name)]))
  }

  /** The largest number a list of names carries, and 0 when they carry none above it. */
  function Highest(names: seq<string>): (h: nat)
    ensures h < TWO_63
  {
    if names == [] then 0
    else
      var before, last := Highest(names[..|names| - 1]), names[|names| - 1];
      if Counted(last) && Number(last) > before then Number(last) else before
  }

  function Max(a: nat, b: nat): nat { if b > a then b else a }

  // ---- the scans ----

  method ExtractHighestNumber(names: seq<string>) returns (highest: nat)
    ensures highest == Highest(names)
  {
    highest := 0;
    for k := 0 to |names|
      invariant highest == Highest(names[..k])
    {
      assert names[..k + 1][..k] == names[..k];
      var name := names[k];
      if name == "" { continue; }
      if Counted(name) {
        var number := Number(name);
        if number > highest { highest := number; }
      }
    }
    assert names[..|names|] == names;
  }

  datatype Entry = Entry(name: string, isDirectory: bool)

  function Directories(entries: seq<Entry>): seq<string> {
    if entries == [] then []
    else
      var before, last := Directories(entries[..|entries| - 1]), entries[|entries| - 1];
      if last.isDirectory then before + [last.name] else before
  }

  method GetHighestFromSpecs(entries: seq<Entry>) returns (highest: nat)
    ensures highest == Highest(Directories(entries))
  {
    highest := 0;
    for k := 0 to |entries|
      invariant highest == Highest(Directories(entries[..k]))
    {
      assert entries[..k + 1][..k] == entries[..k];
      if !entries[k].isDirectory { continue; }
      ghost var before := Directories(entries[..k]);
      assert (before + [entries[k].name])[..|before|] == before;
      if Counted(entries[k].name) {
        var number := Number(entries[k].name);
        if number > highest { highest := number; }
      }
    }
    assert entries[..|entries|] == entries;
  }

  function Flatten(lists: seq<seq<string>>): seq<string> {
    if lists == [] then [] else Flatten(lists[..|lists| - 1]) + lists[|lists| - 1]
  }

  method GetHighestFromRemoteRefs(remotes: seq<seq<string>>) returns (highest: nat)
    ensures highest == Highest(Flatten(remotes))
  {
    highest := 0;
    for k := 0 to |remotes|
      invariant highest == Highest(Flatten(remotes[..k]))
    {
      assert remotes[..k + 1][..k] == remotes[..k];
      var remoteHighest := ExtractHighestNumber(remotes[k]);
      HighestConcat(Flatten(remotes[..k]), remotes[k]);
      if remoteHighest > highest { highest := remoteHighest; }
    }
    assert remotes[..|remotes|] == remotes;
  }

  /** The remote heads are asked only when nothing is fetched. */
  function Refs(branches: seq<string>, remotes: seq<seq<string>>, skipFetch: bool): seq<string> {
    if skipFetch then Flatten(remotes) + branches else branches
  }

  /** The next number over everything in sight. */
  method CheckExistingBranches(branches: seq<string>, remotes: seq<seq<string>>, entries: seq<Entry>, skipFetch: bool)
    returns (next: int)
    ensures next == Wrap(Highest(Refs(branches, remotes, skipFetch) + Directories(entries)) + 1)
  {
    hide Wrap, Highest, Directories, Flatten;
    var highestBranch;
    if skipFetch {
      var highestRemote := GetHighestFromRemoteRefs(remotes);
      highestBranch := ExtractHighestNumber(branches);
      if highestRemote > highestBranch { highestBranch := highestRemote; }
      HighestConcat(Flatten(remotes), branches);
    } else {
      highestBranch := ExtractHighestNumber(branches);
    }
    var highestSpec := GetHighestFromSpecs(entries);
    var max := highestBranch;
    if highestSpec > max { max := highestSpec; }
    HighestConcat(Refs(branches, remotes, skipFetch), Directories(entries));
    next := Wrap(max + 1);
  }

  lemma {:induction false} HighestConcat(a: seq<string>, b: seq<string>)
    ensures Highest(a + b) == Max(Highest(a), Highest(b))
  {
    if b == [] {
      assert a + b == a;
    } else {
      HighestConcat(a, b[..|b| - 1]);
      assert (a + b)[..|a + b| - 1] == a + b[..|b| - 1];
    }
  }

  /** The scan's result is a bound on every number in sight, and one of them unless it is 0. */
  lemma {:induction false} HighestIsLeastBound(names: seq<string>)
    ensures forall k :: 0 <= k < |names| && Counted(names[k]) ==> Number(names[k]) <= Highest(names)
    ensures Highest(names) > 0 ==>
      exists k :: 0 <= k < |names| && Counted(names[k]) && Number(names[k]) == Highest(names)
  {
    if names != [] {
      var front, last := names[..|names| - 1], names[|names| - 1];
      HighestIsLeastBound(front);
      if Highest(names) > 0 && Highest(names) == Highest(front) {
        var k :| 0 <= k < |front| && Counted(front[k]) && Number(front[k]) == Highest(front);
        assert Counted(names[k]) && Number(names[k]) == Highest(names);
      }
    }
  }

  // ---- what the scans look at ----

  /** A name counts when it begins with three digits or more and a hyphen, unless it begins with a time stamp. */
  lemma CountedIff(name: string)
    ensures Sequential(name) <==> exists n :: 3 <= n < |name| && StartsWithNumber(name, n)
    ensures Stamped(name) <==> |name| > 15 && StartsWithNumber(name, 8) && StartsWithNumber(name[9..], 6)
    ensures Counted(name) <==> Sequential(name) && !Stamped(name)
  {
    if n :| 3 <= n < |name| && StartsWithNumber(name, n) { LeadIs(name, n); }
    if Sequential(name) { assert StartsWithNumber(name, Lead(name)); }
    if |name| > 15 {
      if StartsWithNumber(name, 8) { LeadIs(name, 8); }
      if StartsWithNumber(name[9..], 6) { LeadIs(name[9..], 6); }
    }
  }

  /** `n` digits, then a hyphen. */
  ghost predicate StartsWithNumber(name: string, n: nat) {
    n < |name| && name[n] == '-' && forall k :: 0 <= k < n ==> '0' <= name[k] <= '9'
  }

  lemma {:induction false} LeadIs(name: string, n: nat)
    requires StartsWithNumber(name, n)
    ensures Lead(name) == n
  {
    if n > 0 {
      assert forall k :: 0 <= k < n - 1 ==> name[1..][k] == name[k + 1];
      LeadIs(name[1..], n - 1);
    }
  }

  /** The names scanned in the specification directory are those of its directories, not of its files. */
  lemma {:induction false} DirectoriesAre(entries: seq<Entry>, name: string)
    ensures name in Directories(entries) <==> Entry(name, true) in entries
  {
    if entries != [] {
      var front, last := entries[..|entries| - 1], entries[|entries| - 1];
      DirectoriesAre(front, name);
      assert entries == front + [last];
      assert last == Entry(last.name, last.isDirectory);
    }
  }

  lemma {:induction false} FlattenHas(lists: seq<seq<string>>, name: string)
    ensures name in Flatten(lists) <==> exists l :: l in lists && name in l
  {
    if lists != [] {
      var front, last := lists[..|lists| - 1], lists[|lists| - 1];
      FlattenHas(front, name);
      assert lists == front + [last];
    }
  }

  /**
   The next number, said without the scans: as long as it fits into 64 bits, it is above the number of every
   counted name among the branches, the directories and, when nothing is fetched, the heads of all remotes;
   and it is 1, or one more than such a number.
   */
  lemma NextNumberIs(branches: seq<string>, remotes: seq<seq<string>>, entries: seq<Entry>, skipFetch: bool,
                     name: string)
    ensures var seen := Refs(branches, remotes, skipFetch) + Directories(entries);
            var next := Highest(seen) + 1;
            && (name in seen <==> name in branches || Entry(name, true) in entries
                                  || (skipFetch && exists l :: l in remotes && name in l))
            && (name in seen && Counted(name) ==> Number(name) < next)
            && (next > 1 ==> exists k :: 0 <= k < |seen| && Counted(seen[k]) && next == Number(seen[k]) + 1)
            && (next < 0x8000_0000_0000_0000 ==> Wrap(next) == next)
  {
    var seen := Refs(branches, remotes, skipFetch) + Directories(entries);
    FlattenHas(remotes, name);
    DirectoriesAre(entries, name);
    hide Flatten, Directories, Highest, Counted, Number;
    HighestIsLeastBound(seen);
  }

  /** Shell arithmetic keeps what fits into 64 bits and wraps around otherwise. */
  lemma WrapIs(n: int)
    ensures -0x8000_0000_0000_0000 <= Wrap(n) < 0x8000_0000_0000_0000
    ensures (Wrap(n) - n) % 0x1_0000_0000_0000_0000 == 0
    ensures Wrap(n) == n <==> -0x8000_0000_0000_0000 <= n < 0x8000_0000_0000_0000
  {}

  // ---- printing ----

  function Digit(d: nat): char
    requires d < 10
  {
    '0' + d as char
  }

  function Digits(n: nat): (s: string)
    ensures s != "" && forall k :: 0 <= k < |s| ==> IsDigit(s[k])
  {
    if n < 10 then [Digit(n)] else Digits(n / 10) + [Digit(n % 10)]
  }

  /** `printf "%03d"` */
  function Printed(n: nat): (s: string)
    ensures |s| >= 3 && forall k :: 0 <= k < |s| ==> IsDigit(s[k])
  {
    var s := Digits(n);
    seq(if |s| < 3 then 3 - |s| else 0, _ => '0') + s
  }

  lemma {:induction false} DecimalConcat(zeros: string, s: string)
    requires forall k :: 0 <= k < |zeros| ==> zeros[k] == '0'
    requires forall k :: 0 <= k < |s| ==> IsDigit(s[k])
    ensures Decimal(zeros + s) == Decimal(s)
  {
    if s != "" {
      DecimalConcat(zeros, s[..|s| - 1]);
      assert (zeros + s)[..|zeros + s| - 1] == zeros + s[..|s| - 1];
    } else if zeros != "" {
      DecimalConcat(zeros[..|zeros| - 1], s);
      assert zeros + s == zeros && zeros[..|zeros| - 1] + s == zeros[..|zeros| - 1];
    }
  }

  lemma {:induction false} DecimalDigits(n: nat)
    ensures Decimal(Digits(n)) == n
  {
    if n >= 10 {
      DecimalDigits(n / 10);
      assert Digits(n)[..|Digits(n)| - 1] == Digits(n / 10);
    } else {
      assert Digits(n)[..0] == "";
    }
  }

  /** Printing and reading give the number back. */
  lemma PrintedReadsBack(n: nat)
    ensures Decimal(Printed(n)) == n
  {
    var s := Digits(n);
    var zeros := seq(if |s| < 3 then 3 - |s| else 0, _ => '0');
    DecimalConcat(zeros, s);
    DecimalDigits(n);
  }

  /** Every numeral is its value in plain digits behind some zeros: reading is what printing undoes, for any padding. */
  lemma {:induction false} NumeralIsPadded(s: string) returns (zeros: string)
    requires s != "" && AllDigits(s)
    ensures s == zeros + Digits(Decimal(s)) && forall k :: 0 <= k < |zeros| ==> zeros[k] == '0'
  {
    var front, d := s[..|s| - 1], DigitValue(s[|s| - 1]);
    LastDigit(Decimal(front), d);
    assert s == front + [Digit(d)];
    if |s| == 1 {
      zeros := "";
    } else {
      zeros := NumeralIsPadded(front);
      if Decimal(front) == 0 {
        zeros := zeros + "0";
      } else {
        assert zeros + Digits(Decimal(front)) + [Digit(d)] == zeros + (Digits(Decimal(front)) + [Digit(d)]);
      }
    }
  }

  lemma LastDigit(n: nat, d: nat)
    requires d < 10
    ensures Digits(10 * n + d) == if n == 0 then [Digit(d)] else Digits(n) + [Digit(d)]
    ensures Digits(0) == "0"
  {
    assert (10 * n + d) / 10 == n && (10 * n + d) % 10 == d;
  }

  /** Eight digits are printed exactly for the numbers of eight digits. */
  lemma EightDigitsIff(n: nat)
    ensures |Printed(n)| == 8 <==> 10_000_000 <= n < 100_000_000
    ensures n < 1000 ==> |Printed(n)| == 3
    ensures n < 1000_000_000_000_000_000_000 ==> |Printed(n)| <= 21
  {
    LengthOfDigits(n, 1);
    LengthOfDigits(n, 2);
    LengthOfDigits(n, 3);
    LengthOfDigits(n, 7);
    LengthOfDigits(n, 8);
    LengthOfDigits(n, 21);
    PowersOfTen();
  }

  function Pow10(k: nat): nat { if k == 0 then 1 else 10 * Pow10(k - 1) }

  lemma PowersOfTen()
    ensures Pow10(1) == 10 && Pow10(2) == 100 && Pow10(3) == 1000 && Pow10(7) == 10_000_000 && Pow10(8) == 100_000_000
    ensures Pow10(21) == 1000_000_000_000_000_000_000
  {
    assert Pow10(4) == 10_000 && Pow10(8) == 100_000_000 && Pow10(12) == 1_000_000_000_000;
    assert Pow10(16) == 1_0000_0000_0000_0000 && Pow10(20) == 1_0000_0000_0000_0000_0000;
  }

  lemma {:induction false} LengthOfDigits(n: nat, k: nat)
    requires k > 0
    ensures |Digits(n)| <= k <==> n < Pow10(k)
  {
    if n >= 10 && k > 1 {
      LengthOfDigits(n / 10, k - 1);
    }
    if k == 1 { assert Pow10(1) == 10; }
    if n < 10 { AtLeastTen(k); }
  }

  lemma AtLeastTen(k: nat)
    requires k > 0
    ensures Pow10(k) >= 10
  {}

  // ---- the name of a new feature ----

  /** The name made for a number is taken for a time stamp by every later scan. */
  predicate Misread(n: nat, suffix: string) {
    10_000_000 <= n < 100_000_000 && |suffix| > 6 && Lead(suffix) == 6 && suffix[6] == '-'
  }

  function NewName(n: nat, suffix: string): string
    requires n < TWO_63
  {
    EightDigitsIff(n);
    BranchName(Printed(n), suffix)
  }

  lemma {:induction false} LeadOf(number: string, rest: string)
    requires forall k :: 0 <= k < |number| ==> IsDigit(number[k])
    ensures Lead(number + ("-" + rest)) == |number|
  {
    var s := number + ("-" + rest);
    if number == "" {
      assert s[0] == '-';
    } else {
      assert s[0] == number[0] && s[1..] == number[1..] + ("-" + rest);
      LeadOf(number[1..], rest);
    }
  }

  lemma NewNameShape(n: nat, suffix: string) returns (rest: string)
    requires n < TWO_63 && IsClean(suffix)
    ensures NewName(n, suffix) == Printed(n) + ("-" + rest)
    ensures rest <= suffix && (|Printed(n)| == 8 && |rest| <= 6 ==> rest == suffix)
  {
    var number, name := Printed(n), NewName(n, suffix);
    EightDigitsIff(n);
    BranchNameFits(number, suffix);
    hide BranchName, IsClean, Printed;
    rest := name[|number| + 1..];
    assert name == name[..|number| + 1] + rest;
    Regroup(number, "-", rest);
    Regroup(number, "-", suffix);
    PrefixAfter(number + "-", rest, suffix);
  }

  lemma PrefixAfter(head: string, rest: string, suffix: string)
    requires head + rest <= head + suffix
    ensures rest <= suffix
  {
    forall k | 0 <= k < |rest| ensures rest[k] == suffix[k] {
      assert (head + rest)[|head| + k] == (head + suffix)[|head| + k];
    }
  }

  /** Round trip through a name: the next scan reads the same number, unless it skips the name as a time stamp. */
  lemma NewNameReadsBack(n: nat, suffix: string)
    requires n < TWO_63 && IsClean(suffix)
    ensures Number(NewName(n, suffix)) == n
    ensures Counted(NewName(n, suffix)) <==> !Misread(n, suffix)
  {
    var number, name := Printed(n), NewName(n, suffix);
    var rest := NewNameShape(n, suffix);
    EightDigitsIff(n);
    LeadOf(number, rest);
    assert name[..|number|] == number;
    PrintedReadsBack(n);
    if |number| == 8 {
      StampedIff(number, rest);
      LeadOfPrefix(rest, suffix);
    }
    hide NewName, IsClean, Lead, Printed, Decimal;
  }

  lemma StampedIff(number: string, rest: string)
    requires |number| == 8 && forall k :: 0 <= k < |number| ==> IsDigit(number[k])
    ensures Stamped(number + ("-" + rest)) <==> |rest| > 6 && Lead(rest) == 6 && rest[6] == '-'
  {
    LeadOf(number, rest);
    assert (number + ("-" + rest))[9..] == rest;
  }

  lemma {:induction false} LeadOfPrefix(rest: string, s: string)
    requires rest <= s && (|rest| > 6 || rest == s)
    ensures Lead(rest) == 6 && |rest| > 6 <==> Lead(s) == 6 && |s| > 6
  {
    assert forall k :: 0 <= k < |rest| ==> rest[k] == s[k];
  }

  // ---- runs of the script ----

  /** Branch and specification names in sight, and the features made here: number and name, oldest first. */
  datatype Repo = Repo(hasGit: bool, branches: seq<string>, specs: seq<string>, made: seq<(nat, string)>)

  function InSight(r: Repo): seq<string> {
    if r.hasGit then r.branches + r.specs else r.specs
  }

  datatype Event =
    | Create(suffix: string)
    | Fetched(branch: string)
    | MadeDirectory(name: string)
    | CheckedOut(specs: seq<string>)

  /** Nothing that keeps a number in sight goes away: branches with git, directories without. */
  predicate Legal(r: Repo, e: Event) {
    match e
    case Create(suffix) => IsClean(suffix)
    case Fetched(_) => r.hasGit
    case MadeDirectory(_) => true
    case CheckedOut(_) => r.hasGit
  }

  function Allocate(r: Repo): nat { Highest(InSight(r)) + 1 }

  /** A run that ends at a branch of the same name leaves everything as it was. */
  function Happen(r: Repo, e: Event): Repo {
    match e
    case Create(suffix) =>
      var n := Allocate(r);
      if n >= TWO_63 then r
      else
        var name := NewName(n, suffix);
        if r.hasGit && name in r.branches then r
        else
          r.(branches := if r.hasGit then r.branches + [name] else r.branches,
             specs := if name in r.specs then r.specs else r.specs + [name],
             made := r.made + [(n, name)])
    case Fetched(branch) => r.(branches := r.branches + [branch])
    case MadeDirectory(name) => r.(specs := r.specs + [name])
    case CheckedOut(specs) => r.(specs := specs)
  }

  function History(r: Repo, events: seq<Event>): Repo {
    if events == [] then r else Happen(History(r, events[..|events| - 1]), events[|events| - 1])
  }

  ghost predicate LegalHistory(r: Repo, events: seq<Event>) {
    forall k :: 0 <= k < |events| ==> Legal(History(r, events[..k]), events[k])
  }

  /** No creating run of the history makes a name that is taken for a time stamp. */
  ghost predicate NoneMisread(r: Repo, events: seq<Event>) {
    forall k :: 0 <= k < |events| && events[k].Create? ==> !Misread(Allocate(History(r, events[..k])), events[k].suffix)
  }

  /** Where the names made with this repository stay in sight. */
  function Kept(r: Repo): seq<string> { if r.hasGit then r.branches else r.specs }

  ghost predicate Recorded(r: Repo, k: nat)
    requires k < |r.made|
  {
    && r.made[k].1 in Kept(r)
    && Counted(r.made[k].1)
    && Number(r.made[k].1) == r.made[k].0
  }

  ghost predicate Ordered(r: Repo) {
    && (forall k :: 0 <= k < |r.made| ==> Recorded(r, k))
    && (forall j, k :: 0 <= j < k < |r.made| ==> r.made[j].0 < r.made[k].0)
  }

  /** A new number is above every number in sight. */
  lemma AboveAllInSight(r: Repo, name: string)
    requires name in InSight(r) && Counted(name)
    ensures Number(name) < Allocate(r)
  {
    HighestIsLeastBound(InSight(r));
  }

  /** So a readable name is new: the run does not meet a branch or a directory of that name. */
  lemma NewNameIsNew(r: Repo, suffix: string)
    requires IsClean(suffix) && Allocate(r) < TWO_63 && !Misread(Allocate(r), suffix)
    ensures NewName(Allocate(r), suffix) !in r.specs && (r.hasGit ==> NewName(Allocate(r), suffix) !in r.branches)
  {
    var name := NewName(Allocate(r), suffix);
    NewNameReadsBack(Allocate(r), suffix);
    if name in InSight(r) {
      AboveAllInSight(r, name);
    }
  }

  /**
   After a creating run the next number is one higher exactly when the new name can be read back; else it is the same
   again.
   */
  lemma NextNumberAdvancesIff(r: Repo, suffix: string)
    requires IsClean(suffix) && Allocate(r) < TWO_63
    ensures var next := Allocate(Happen(r, Create(suffix)));
            if Misread(Allocate(r), suffix) then next == Allocate(r) else next == Allocate(r) + 1
  {
    hide Highest, Counted, Number, NewName, Misread, IsClean;
    var n := Allocate(r);
    var name, after := NewName(n, suffix), Happen(r, Create(suffix));
    NewNameReadsBack(n, suffix);
    if Counted(name) { NewNameIsNew(r, suffix); }
    HighestOfOne(name);
    HighestConcat(r.branches, r.specs);
    HighestConcat(after.branches, after.specs);
    HighestConcat(r.branches, [name]);
    HighestConcat(r.specs, [name]);
  }

  lemma HighestOfOne(name: string)
    ensures Highest([name]) == if Counted(name) && Number(name) > 0 then Number(name) else 0
  {
    assert [name][..0] == [];
    assert Highest([]) == 0;
  }

  lemma HappenKeepsOrder(r: Repo, e: Event)
    requires Ordered(r) && Legal(r, e) && (e.Create? ==> !Misread(Allocate(r), e.suffix))
    ensures Ordered(Happen(r, e))
  {
    var after := Happen(r, e);
    assert forall name :: name in Kept(r) ==> name in Kept(after);
    forall k | 0 <= k < |r.made| ensures Recorded(after, k) && r.made[k].0 < Allocate(r) {
      assert Recorded(r, k);
      AboveAllInSight(r, r.made[k].1);
    }
    if after.made != r.made {
      NewNameReadsBack(Allocate(r), e.suffix);
      assert Recorded(after, |r.made|);
    }
  }

  /**
   Over every history in which no name is taken for a time stamp: allocated numbers strictly increase
   and no two names are the same.
   */
  lemma {:induction false} NumbersStrictlyIncrease(r: Repo, events: seq<Event>)
    requires r.made == [] && LegalHistory(r, events) && NoneMisread(r, events)
    ensures var made := History(r, events).made;
            forall j, k :: 0 <= j < k < |made| ==> made[j].0 < made[k].0 && made[j].1 != made[k].1
  {
    OrderedThroughout(r, events);
    var n := History(r, events);
    forall j, k | 0 <= j < k < |n.made| ensures n.made[j].0 < n.made[k].0 && n.made[j].1 != n.made[k].1 {
      assert Recorded(n, j) && Recorded(n, k);
    }
  }

  lemma {:induction false} OrderedThroughout(r: Repo, events: seq<Event>)
    requires r.made == [] && LegalHistory(r, events) && NoneMisread(r, events)
    ensures Ordered(History(r, events))
  {
    if events != [] {
      var front := events[..|events| - 1];
      assert forall k :: 0 <= k < |front| ==> front[..k] == events[..k] && front[k] == events[k];
      OrderedThroughout(r, front);
      HappenKeepsOrder(History(r, front), events[|events| - 1]);
    }
  }

  /** Every run made a feature, as long as the numbers stay within 64 bits: none ends at an existing branch. */
  lemma EveryRunMakesOne(r: Repo, suffix: string)
    requires IsClean(suffix) && Allocate(r) < TWO_63 && !Misread(Allocate(r), suffix)
    ensures Happen(r, Create(suffix)).made == r.made + [(Allocate(r), NewName(Allocate(r), suffix))]
  {
    NewNameIsNew(r, suffix);
  }

  /** Below ten million no name is misread, whatever the suffix; from there up to the ninth digit some suffix is. */
  lemma SafeNumbersIff(n: nat)
    ensures (forall suffix :: IsClean(suffix) ==> !Misread(n, suffix)) <==> n < 10_000_000 || n >= 100_000_000
  {
    var bad := "123456-x";
    LooksLikeTime(bad);
    hide IsClean, Lead;
    assert Misread(n, bad) <==> 10_000_000 <= n < 100_000_000;
  }

  /** Two features under one number: what follows a name that reads as a time stamp. */
  lemma MisreadNumberIsGivenTwice(r: Repo, first: string, second: string)
    requires IsClean(first) && Misread(Allocate(r), first) && NewName(Allocate(r), first) !in r.branches
    requires IsClean(second) && !Misread(Allocate(r), second)
    ensures var made := Happen(Happen(r, Create(first)), Create(second)).made;
            made == r.made + [(Allocate(r), NewName(Allocate(r), first)), (Allocate(r), NewName(Allocate(r), second))]
  {
    assert Allocate(r) < TWO_63;
    hide Highest, NewName, IsClean, Misread;
    NextNumberAdvancesIff(r, first);
    EveryRunMakesOne(Happen(r, Create(first)), second);
  }

  /** It takes nothing but one branch with the number 9,999,999. */
  lemma NumberGivenTwice(r: Repo, first: string, second: string)
    requires r == Repo(true, [NewName(9_999_999, "")], [], []) && first == "123456-x" && second == ""
    ensures var made := Happen(Happen(r, Create(first)), Create(second)).made;
            |made| == 2 && made[0].0 == made[1].0 == 10_000_000
  {
    TenMillionIsNext(r);
    LooksLikeTime(first);
    NewNameReadsBack(9_999_999, "");
    NewNameReadsBack(10_000_000, first);
    assert Misread(10_000_000, first);
    hide NewName, Counted, Lead, Number, IsClean, Highest;
    MisreadNumberIsGivenTwice(r, first, second);
  }

  lemma TenMillionIsNext(r: Repo)
    requires r == Repo(true, [NewName(9_999_999, "")], [], [])
    ensures Allocate(r) == 10_000_000
  {
    NewNameReadsBack(9_999_999, "");
    hide NewName, Counted, Number;
    assert r.branches + r.specs == [NewName(9_999_999, "")];
    HighestOfOne(NewName(9_999_999, ""));
  }

  lemma LooksLikeTime(s: string)
    requires s == "123456-x"
    ensures IsClean(s) && Lead(s) == 6 && |s| > 6 && s[6] == '-'
  {
    LeadOf("123456", "x");
    assert s == "123456" + ("-" + "x");
  }

  /** A name that begins with date and time carries no number: such features do not move the count. */
  lemma StampedNamesDoNotCount(date: string, time: string, suffix: string, names: seq<string>)
    requires |date| == 8 && |time| == 6 && AllDigits(date) && AllDigits(time) && IsClean(suffix)
    ensures Highest(names + [BranchName(date + "-" + time, suffix)]) == Highest(names)
  {
    hide BranchName, IsClean, Stamped, Sequential, Number;
    var name := BranchName(date + "-" + time, suffix);
    var rest := StampedShape(date, time, suffix);
    StampedIff(date, time + ("-" + rest));
    LeadOf(time, rest);
    assert (time + ("-" + rest))[6] == '-';
    assert (names + [name])[..|names|] == names;
  }

  lemma StampedShape(date: string, time: string, suffix: string) returns (rest: string)
    requires |date| == 8 && |time| == 6 && IsClean(suffix)
    ensures BranchName(date + "-" + time, suffix) == date + ("-" + (time + ("-" + rest)))
  {
    var stamp := date + "-" + time;
    BranchNameFits(stamp, suffix);
    hide BranchName, IsClean;
    var name := BranchName(stamp, suffix);
    rest := name[16..];
    assert name == name[..16] + rest;
    Regroup(stamp, "-", rest);
    Regroup(date, "-", time);
    Regroup(date, "-" + time, "-" + rest);
    Regroup("-", time, "-" + rest);
  }

  lemma Regroup(a: string, b: string, c: string)
    ensures a + b + c == a + (b + c)
  {}
}
