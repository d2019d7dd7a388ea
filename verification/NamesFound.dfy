/** When the naming loop finds a name for every file of a job. */
module NamesFound {
  import opened SegmentPlan
  import opened Text
  import opened Naming
  import opened JobNames

  /** A disk without links and unreadable entries, with fewer of them than there are candidates. */
  ghost predicate Ordinary(disk: map<string, Entry>) {
    |disk| < 100_000 && forall path :: path in disk ==> disk[path] == Regular
  }

  // ----- a free candidate

  /** The text of the path before and after the suffix of its candidates. */
  function Front(path: string): string { DirOf(path) + StemOf(BaseName(path)) }

  lemma CandidateIsTried(path: string, k: nat)
    ensures Candidate(path, k) == Suffixed(Front(path), k, Extension(BaseName(path)))
  {
    hide Candidate, DirOf, StemOf, BaseName, Extension, Suffixed;
    CandidateIs(path, k);
    SuffixBehind(DirOf(path), StemOf(BaseName(path)), k, Extension(BaseName(path)));
  }

  lemma {:induction false} OccupiedIsTried(path: string, disk: map<string, Entry>, n: nat)
    requires Occupied(path, disk, n)
    ensures Tried(Front(path), Extension(BaseName(path)), n) <= disk.Keys
  {
    hide Candidate, Front, Suffixed;
    if n > 0 {
      CandidateIsTried(path, n);
      OccupiedIsTried(path, disk, n - 1);
    }
  }

  /** Pigeonhole: a row of taken candidates is no longer than the disk. */
  lemma OccupiedIsShort(path: string, disk: map<string, Entry>, n: nat)
    requires Occupied(path, disk, n)
    ensures n <= |disk|
  {
    var ext := Extension(BaseName(path));
    OccupiedIsTried(path, disk, n);
    TriedAreDistinct(Front(path), ext, n, n);
    SubsetIsSmaller(Tried(Front(path), ext, n), disk.Keys);
    hide *;
    assert |disk.Keys| == |disk|;
  }

  lemma {:induction false} FirstGap(path: string, disk: map<string, Entry>, n: nat) returns (gap: nat)
    requires Ordinary(disk) && Occupied(path, disk, n)
    ensures gap <= |disk| && Occupied(path, disk, gap) && Candidate(path, gap + 1) !in disk
    decreases |disk| + 1 - n
  {
    hide Candidate;
    OccupiedIsShort(path, disk, n);
    gap := n;
    if Candidate(path, n + 1) in disk {
      OneMoreOccupied(path, disk, n + 1);
      gap := FirstGap(path, disk, n + 1);
    }
  }

  lemma PlanFinds(path: string, policy: Policy, disk: map<string, Entry>)
    requires Clean(path) && path != "" && Ordinary(disk) && (policy == Rename || policy == Overwrite)
    ensures Plan(path, policy, disk).Name?
  {
    hide Clean, Candidate, Occupied, PlanFrom;
    if path in disk {
      NoneOccupied(path, disk);
      var gap := FirstGap(path, disk, 0);
      TakenPathIsPlanned(path, disk, gap);
    }
  }

  // ----- a name for every file

  lemma {:induction false} ChosenFinds(start: string, policy: Policy, disk: map<string, Entry>, seen: set<string>)
    requires Clean(start) && start != "" && Ordinary(disk) && (policy == Rename || policy == Overwrite)
    ensures Chosen(start, policy, disk, seen).Name?
    decreases Room(start, disk), start in seen
  {
    hide Clean, Room, Unique, Plan, Ordinary;
    PlanFinds(start, policy, disk);
    PlanIsGood(start, policy, disk);
    var planned := Plan(start, policy, disk).path;
    if planned in seen {
      RetryMovesOn(start, policy, disk, seen, planned);
      UniqueIsClean(planned, seen);
      UniqueIsFresh(planned, seen);
      ChosenFinds(Unique(planned, seen), policy, disk, seen);
    }
  }

  lemma JoinIsClean(dir: string, path: string)
    requires Clean(dir) && Clean(path)
    ensures Clean(JoinRelative(dir, path))
  {
    if dir != "" && path != "" { SplitJoined(dir, path); }
  }

  /** An input that gets a name: a clean one, not empty unless a destination stands for it. */
  ghost predicate Nameable(input: string, destination: string) {
    Clean(input) && (input != "" || destination != "")
  }

  lemma OneMoreFindsIff(rows: seq<Names>, input: string, destination: string, policy: Policy, disk: map<string, Entry>)
    requires Clean(destination) && Ordinary(disk) && (policy == Rename || policy == Overwrite)
    requires "" !in Finals(rows)
    ensures OneMore(rows, input, destination, policy, disk).Ok? <==> Nameable(input, destination)
    ensures var r := OneMore(rows, input, destination, policy, disk); r.Ok? ==> "" !in Finals(r.value)
  {
    hide Clean, Ordinary, Chosen, Unique, Finals;
    var remote := Unique(input, Finals(rows));
    UniqueUnchanged(input, Finals(rows));
    UniqueIsFresh(input, Finals(rows));
    var start := JoinRelative(destination, remote);
    if Clean(input) {
      if input != "" { UniqueIsClean(input, Finals(rows)); }
      JoinIsClean(destination, remote);
      if start != "" {
        ChosenFinds(start, policy, disk, Finals(rows));
        ChosenIsGood(start, policy, disk, Finals(rows));
        var final := Chosen(start, policy, disk, Finals(rows)).path;
        FinalsOfOneMore(rows, Names(remote, final));
      } else {
        EmptyIsRefused(policy, disk, Finals(rows));
      }
    }
  }

  lemma EmptyIsRefused(policy: Policy, disk: map<string, Entry>, seen: set<string>)
    ensures Chosen("", policy, disk, seen).Refused?
  {
    hide Clean, Room, Unique;
  }

  /** On an ordinary disk, renaming or overwriting, the naming loop succeeds exactly if every input is a
      clean path, empty only where there is a destination: no number of collisions makes it fail. */
  lemma {:induction false} NamesAreFoundIff(inputs: seq<string>, destination: string, policy: Policy,
                                            disk: map<string, Entry>)
    requires Clean(destination) && Ordinary(disk) && (policy == Rename || policy == Overwrite)
    ensures Named(inputs, destination, policy, disk).Ok? <==>
              forall i :: 0 <= i < |inputs| ==> Nameable(inputs[i], destination)
    ensures var r := Named(inputs, destination, policy, disk); r.Ok? ==> "" !in Finals(r.value)
    decreases |inputs|
  {
    hide Clean, Ordinary, OneMore, Nameable;
    if inputs != [] {
      var n := |inputs| - 1;
      NamesAreFoundIff(inputs[..n], destination, policy, disk);
      var before := Named(inputs[..n], destination, policy, disk);
      if before.Ok? { OneMoreFindsIff(before.value, inputs[n], destination, policy, disk); }
      assert inputs == inputs[..n] + [inputs[n]];
      hide Finals;
    }
  }
}
