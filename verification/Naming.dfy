/** How a job's files get their names: path sanitizing, conflict planning against the disk, and the
    suffix loops that keep names apart. */
module Naming {
  import opened SegmentPlan
  import opened Text

  const MAX_CANDIDATES: int := 100_000

  // ----- sanitizing

  datatype PathError = InvalidPath | Conflict | Symlink | Io | BadPolicy

  datatype Planned = Name(path: string) | Refused(error: PathError)

  predicate GoodComponent(c: string) {
    c != "" && c != "." && c != ".." && '\0' !in c && '/' !in c && '\\' !in c
  }

  /** A path below the root: no NUL, no backslash, no empty, dot or dot-dot component. */
  ghost predicate Clean(path: string) {
    path == "" || forall i :: 0 <= i < |Split(path)| ==> GoodComponent(Split(path)[i])
  }

  method SanitizeComponent(component: string) returns (r: Result<string>)
    ensures r.Ok? <==> GoodComponent(component)
    ensures r.Ok? ==> r.value == component
  {
    if component == "" || component == "." || component == ".." { return Err; }
    if '\0' in component || '/' in component || '\\' in component { return Err; }
    return Ok(component);
  }

  /** SanitizeRelativePath accepts exactly the clean paths and returns them unchanged. */
  method SanitizeRelativePath(value: string) returns (r: Result<string>)
    ensures r.Ok? <==> Clean(value)
    ensures r.Ok? ==> r.value == value
  {
    if value == "" { return Ok(""); }
    var parts := Split(value);
    if '\0' in value || value[0] == '/' || '\\' in value {
      BadCharacterSpoils(value);
      return Err;
    }
    var clean: seq<string> := [];
    for i := 0 to |parts|
      invariant clean == parts[..i] && forall j :: 0 <= j < i ==> GoodComponent(parts[j])
    {
      var component := SanitizeComponent(parts[i]);
      if component.Err? { return Err; }
      clean := clean + [component.value];
    }
    JoinSplit(value);
    assert clean == parts;
    return Ok(JoinSlash(clean));
  }

  lemma {:induction false} CharacterInSplit(s: string, c: char)
    requires c in s && c != '/'
    ensures exists i :: 0 <= i < |Split(s)| && c in Split(s)[i]
  {
    var parts, rest := Split(s), Split(s[1..]);
    if s[0] == c {
      assert c in parts[0];
    } else {
      assert c in s[1..];
      CharacterInSplit(s[1..], c);
      var i :| 0 <= i < |rest| && c in rest[i];
      if s[0] == '/' { assert parts[i + 1] == rest[i]; }
      else if i == 0 { assert c in parts[0]; }
      else { assert parts[i] == rest[i]; }
    }
  }

  lemma BadCharacterSpoils(value: string)
    requires value != "" && ('\0' in value || value[0] == '/' || '\\' in value)
    ensures !Clean(value)
  {
    if '\0' in value {
      CharacterInSplit(value, '\0');
    } else if '\\' in value {
      CharacterInSplit(value, '\\');
    } else {
      assert Split(value)[0] == "";
    }
  }

  // ----- planning against the disk

  datatype Entry = Regular | Link | Unreadable

  datatype Policy = Rename | Overwrite | FailIfExists | Unknown

  /** splitRelative and filepath.Ext, which treats a dot file as having no extension. */
  function Parent(path: string): string {
    var slash := LastIndex(path, '/');
    if slash < 0 then "" else path[..slash]
  }

  function BaseName(path: string): string { path[LastIndex(path, '/') + 1..] }

  function Extension(base: string): string {
    var dot := LastIndex(base, '.');
    if dot <= 0 then "" else base[dot..]
  }

  /** The i-th rename candidate of a path. */
  function Candidate(path: string, i: nat): string {
    var base := BaseName(path);
    var ext := Extension(base);
    var name := Suffixed(base[..|base| - |ext|], i, ext);
    if Parent(path) == "" then name else Parent(path) + "/" + name
  }

  /** The first n candidates of a path are regular files. */
  ghost predicate Occupied(path: string, disk: map<string, Entry>, n: nat) {
    forall j :: 1 <= j <= n ==> Candidate(path, j) in disk && disk[Candidate(path, j)] == Regular
  }

  lemma CandidateIsLonger(path: string, i: nat)
    requires Clean(path) && path != ""
    ensures |Candidate(path, i)| > |path|
  {
    CleanHasNoLeadingSlash(path);
    hide Clean;
  }

  /** PlanConflict as a function, from candidate i on. */
  ghost function PlanFrom(path: string, disk: map<string, Entry>, i: nat): Planned
    decreases MAX_CANDIDATES + 1 - i
  {
    if i > MAX_CANDIDATES then Refused(Conflict)
    else if !Clean(Candidate(path, i)) then Refused(InvalidPath)
    else if Candidate(path, i) !in disk then Name(Candidate(path, i))
    else match disk[Candidate(path, i)]
         case Unreadable => Refused(Io)
         case Link => Refused(Symlink)
         case Regular => PlanFrom(path, disk, i + 1)
  }

  ghost function Plan(path: string, policy: Policy, disk: map<string, Entry>): Planned {
    if !Clean(path) || path == "" then Refused(InvalidPath)
    else if policy == Unknown then Refused(BadPolicy)
    else if path !in disk then Name(path)
    else if disk[path] == Unreadable then Refused(Io)
    else if disk[path] == Link then Refused(Symlink)
    else if policy == Overwrite then Name(path)
    else if policy == FailIfExists then Refused(Conflict)
    else PlanFrom(path, disk, 1)
  }

  /** PlanConflict. A planned name is the path itself or a longer candidate, the first one after a row
      of regular files, and it is free unless the policy overwrites a regular file. */
  method PlanConflict(relative: string, policy: Policy, disk: map<string, Entry>) returns (r: Planned)
    ensures r == Plan(relative, policy, disk)
    ensures r.Name? ==> Clean(relative) && relative != "" && Clean(r.path) && policy != Unknown
    ensures r.Name? ==> r.path == relative || |r.path| > |relative|
    ensures r.Name? && r.path != relative ==> relative in disk && policy == Rename
    ensures r.Name? ==> r.path !in disk || (policy == Overwrite && r.path == relative && disk[relative] == Regular)
    ensures Clean(relative) && relative != "" && policy != Unknown && relative !in disk ==> r == Name(relative)
    ensures policy == FailIfExists && relative in disk ==> r.Refused?
    ensures r.Name? && r.path != relative ==>
              exists i :: 0 <= i < MAX_CANDIDATES && r.path == Candidate(relative, i + 1) && Occupied(relative, disk, i)
  {
    hide Clean, Split, Candidate, Occupied;
    var safe := SanitizeRelativePath(relative);
    if safe.Err? || safe.value == "" { return Refused(InvalidPath); }
    if policy == Unknown { return Refused(BadPolicy); }
    if relative !in disk { return Name(relative); }
    if disk[relative] == Unreadable { return Refused(Io); }
    if disk[relative] == Link { return Refused(Symlink); }
    if policy == Overwrite { return Name(relative); }
    if policy == FailIfExists { return Refused(Conflict); }
    NoneOccupied(relative, disk);
    var index := 1;
    while index <= MAX_CANDIDATES
      invariant 1 <= index <= MAX_CANDIDATES + 1 && Occupied(relative, disk, index - 1)
      invariant Plan(relative, policy, disk) == PlanFrom(relative, disk, index)
    {
      var candidate := SanitizeRelativePath(Candidate(relative, index));
      if candidate.Err? { return Refused(InvalidPath); }
      CandidateIsLonger(relative, index);
      if candidate.value !in disk {
        ghost var i := index - 1;
        assert candidate.value == Candidate(relative, i + 1);
        return Name(candidate.value);
      }
      if disk[candidate.value] == Unreadable { return Refused(Io); }
      if disk[candidate.value] == Link { return Refused(Symlink); }
      OneMoreOccupied(relative, disk, index);
      index := index + 1;
    }
    return Refused(Conflict);
  }

  lemma NoneOccupied(path: string, disk: map<string, Entry>)
    ensures Occupied(path, disk, 0)
  {
  }

  lemma OneMoreOccupied(path: string, disk: map<string, Entry>, n: nat)
    requires n > 0 && Occupied(path, disk, n - 1)
    requires Candidate(path, n) in disk && disk[Candidate(path, n)] == Regular
    ensures Occupied(path, disk, n)
  {
  }

  lemma CleanHasNoLeadingSlash(path: string)
    requires Clean(path) && path != ""
    ensures path[0] != '/'
  {
    if path[0] == '/' { BadCharacterSpoils(path); }
  }

  // ----- unique names within a job

  function UniqueBase(value: string): (string, string) {
    var dot := LastIndex(value, '.');
    if dot > 0 then (value[..dot], value[dot..]) else (value, "")
  }

  /** The first suffixed name from index i on that is not in seen, looking at n more names at most. */
  function FirstFree(base: string, ext: string, seen: set<string>, i: nat, n: nat): (r: string)
    ensures |r| > |base| + |ext|
    decreases n
  {
    var candidate := Suffixed(base, i, ext);
    if candidate !in seen || n == 0 then candidate else FirstFree(base, ext, seen, i + 1, n - 1)
  }

  /** uniqueRelativePath as a function: |seen| further names are always enough (UniqueIsFresh). */
  function Unique(value: string, seen: set<string>): string {
    if value !in seen then value
    else
      var (base, ext) := UniqueBase(value);
      FirstFree(base, ext, seen, 1, |seen|)
  }

  /** The names base (1)ext to base (n)ext. */
  function Tried(base: string, ext: string, n: nat): (r: set<string>) {
    if n == 0 then {} else Tried(base, ext, n - 1) + {Suffixed(base, n, ext)}
  }

  lemma {:induction false} TriedAreDistinct(base: string, ext: string, n: nat, k: nat)
    ensures |Tried(base, ext, n)| == n
    ensures k > n ==> Suffixed(base, k, ext) !in Tried(base, ext, n)
  {
    if n > 0 {
      TriedAreDistinct(base, ext, n - 1, n);
      TriedAreDistinct(base, ext, n - 1, k);
      if k > n && Suffixed(base, k, ext) == Suffixed(base, n, ext) { SuffixedInjective(base, ext, k, n); }
    }
  }

  lemma SubsetIsSmaller(a: set<string>, b: set<string>)
    requires a <= b
    ensures |a| <= |b|
  {
    assert b == a + (b - a);
  }

  /** Pigeonhole: not all of the first |seen| + 1 suffixed names are seen. */
  lemma {:induction false} FirstFreeIsFresh(base: string, ext: string, seen: set<string>, i: nat)
    requires 1 <= i <= |seen| + 1 && Tried(base, ext, i - 1) <= seen
    ensures FirstFree(base, ext, seen, i, |seen| + 1 - i) !in seen
    decreases |seen| + 1 - i
  {
    if Suffixed(base, i, ext) in seen {
      TriedAreDistinct(base, ext, i, i);
      SubsetIsSmaller(Tried(base, ext, i), seen);
      FirstFreeIsFresh(base, ext, seen, i + 1);
    }
  }

  /** uniqueRelativePath always finds a name outside the finite set, one no shorter than the value. */
  lemma UniqueIsFresh(value: string, seen: set<string>)
    ensures Unique(value, seen) !in seen
    ensures value in seen ==> |Unique(value, seen)| > |value|
  {
    if value in seen {
      var (base, ext) := UniqueBase(value);
      UnusedStep(base, ext, seen);
    }
  }

  /** The search of Unique may look at one name more than FirstFreeIsFresh needs. */
  lemma UnusedStep(base: string, ext: string, seen: set<string>)
    ensures FirstFree(base, ext, seen, 1, |seen|) !in seen
  {
    FirstFreeIsFresh(base, ext, seen, 1);
  }

  /** uniqueRelativePath: the unbounded counter loop terminates for every finite set. */
  method UniqueRelativePath(value: string, seen: set<string>) returns (r: string)
    ensures r == Unique(value, seen) && r !in seen
  {
    UniqueIsFresh(value, seen);
    if value !in seen { return value; }
    var split := UniqueBase(value);
    var base, ext := split.0, split.1;
    var index := 1;
    while true
      invariant 1 <= index <= |seen| + 1 && Tried(base, ext, index - 1) <= seen
      invariant Unique(value, seen) == FirstFree(base, ext, seen, index, |seen| + 1 - index)
      decreases |seen| + 1 - index
    {
      var candidate := Suffixed(base, index, ext);
      if candidate !in seen { return candidate; }
      TriedAreDistinct(base, ext, index, index);
      SubsetIsSmaller(Tried(base, ext, index), seen);
      index := index + 1;
    }
  }

  function JoinRelative(prefix: string, value: string): string {
    if prefix == "" then value else if value == "" then prefix else prefix + "/" + value
  }

  /** No name in the set is longer. */
  ghost function Longest(names: set<string>): nat
    decreases |names|
  {
    if p :| p in names then var rest := Longest(names - {p}); if |p| > rest then |p| else rest else 0
  }

  lemma {:induction false} LongestBounds(names: set<string>, q: string)
    requires q in names
    ensures |q| <= Longest(names)
    decreases |names|
  {
    var p :| p in names && Longest(names) == var rest := Longest(names - {p}); if |p| > rest then |p| else rest;
    if q != p { LongestBounds(names - {p}, q); }
  }

  /** What the retry loop can still go through: longer names up to the longest on disk. */
  ghost function Room(path: string, disk: map<string, Entry>): nat {
    if |path| <= Longest(disk.Keys) then Longest(disk.Keys) + 1 - |path| else 0
  }

  /** A planned name that is taken in the job is followed by a longer name, or by a new one beyond the
      longest on disk. */
  lemma RetryMovesOn(path: string, policy: Policy, disk: map<string, Entry>, seen: set<string>, planned: string)
    requires planned in seen && Plan(path, policy, disk) == Name(planned)
    ensures var next := Unique(planned, seen);
            Room(next, disk) < Room(path, disk) || (Room(next, disk) == Room(path, disk) && next !in seen
                && path in seen)
  {
    UniqueIsFresh(planned, seen);
    PlanIsNoShorter(path, policy, disk);
    hide Plan, Unique;
    if path in disk.Keys { LongestBounds(disk.Keys, path); }
  }

  lemma PlanIsNoShorter(path: string, policy: Policy, disk: map<string, Entry>)
    ensures var r := Plan(path, policy, disk); r.Name? ==> r.path == path || (|r.path| > |path| && path in disk)
  {
    hide Candidate, Clean;
    if Plan(path, policy, disk) == PlanFrom(path, disk, 1) && Clean(path) && path != "" { FromIsLonger(path, disk, 1); }
  }

  lemma {:induction false} FromIsLonger(path: string, disk: map<string, Entry>, i: nat)
    requires Clean(path) && path != ""
    ensures var r := PlanFrom(path, disk, i); r.Name? ==> |r.path| > |path|
    decreases MAX_CANDIDATES + 1 - i
  {
    hide Candidate, Clean;
    if i <= MAX_CANDIDATES {
      CandidateIsLonger(path, i);
      FromIsLonger(path, disk, i + 1);
    }
  }

  /** The plan/unique retry loop of handleCreateDownload as a function. */
  ghost function Chosen(start: string, policy: Policy, disk: map<string, Entry>, seen: set<string>): Planned
    decreases Room(start, disk), start in seen
  {
    var planned := Plan(start, policy, disk);
    if planned.Refused? || planned.path !in seen then planned
    else
      RetryMovesOn(start, policy, disk, seen, planned.path);
      Chosen(Unique(planned.path, seen), policy, disk, seen)
  }

  /** The plan/unique retry loop of handleCreateDownload, for one file. It terminates for every disk
      state and policy, and the name it accepts is not taken by an earlier file of the job. */
  method ChooseFinal(start: string, policy: Policy, disk: map<string, Entry>, seen: set<string>) returns (r: Planned)
    ensures r == Chosen(start, policy, disk, seen)
    ensures r.Name? ==> r.path !in seen && Clean(r.path) && r.path != ""
    ensures r.Name? && policy == Rename ==> r.path !in disk
    ensures Clean(start) && start != "" && policy != Unknown && start !in disk && start !in seen ==> r == Name(start)
  {
    hide Clean, Unique, Room;
    var final := start;
    while true
      invariant Chosen(start, policy, disk, seen) == Chosen(final, policy, disk, seen)
      invariant final == start || !(Clean(start) && start != "" && policy != Unknown && start !in disk
                && start !in seen)
      decreases Room(final, disk), final in seen
    {
      var planned := PlanConflict(final, policy, disk);
      if planned.Refused? { return planned; }
      if planned.path !in seen { return planned; }
      RetryMovesOn(final, policy, disk, seen, planned.path);
      final := UniqueRelativePath(planned.path, seen);
    }
  }

  lemma UniqueUnchanged(path: string, seen: set<string>)
    ensures path !in seen ==> Unique(path, seen) == path
  {
  }

  lemma FreeIsChosen(start: string, policy: Policy, disk: map<string, Entry>, seen: set<string>)
    requires Clean(start) && start != "" && policy != Unknown && start !in disk
    ensures start !in seen ==> Chosen(start, policy, disk, seen) == Name(start)
    ensures start in seen ==> Chosen(start, policy, disk, seen) == Chosen(Unique(start, seen), policy, disk, seen)
  {
    hide Clean, Unique, PlanFrom;
  }

  // ----- suffixes keep a path clean

  lemma CleanCharacters(path: string)
    requires Clean(path) && path != ""
    ensures '\0' !in path && '\\' !in path
  {
    if '\0' in path || '\\' in path { BadCharacterSpoils(path); }
  }

  lemma InsertKeepsClean(a: string, ins: string, b: string)
    requires Clean(a + b) && a + b != "" && |ins| >= 3
    requires '/' !in ins && '\0' !in ins && '\\' !in ins
    ensures Clean(a + ins + b)
  {
    CleanCharacters(a + b);
    var s := a + ins + b;
    assert '\0' !in s && '\\' !in s;
    forall i | 0 <= i < |Split(s)| ensures GoodComponent(Split(s)[i]) {
      SplitPieces(s, i);
      SplitInserted(a, ins, b, i);
      assert Split(s)[i] == Split(a + b)[i] ==> GoodComponent(Split(s)[i]);
    }
  }

  lemma {:induction false} DigitsArePlain(n: nat)
    ensures forall c :: c in Digits(n) ==> '0' <= c <= '9'
  {
    if n >= 10 { DigitsArePlain(n / 10); }
  }

  lemma SuffixedIsClean(base: string, k: nat, ext: string)
    requires Clean(base + ext) && base + ext != ""
    ensures Clean(Suffixed(base, k, ext))
  {
    DigitsArePlain(k);
    var ins := " (" + Digits(k) + ")";
    assert forall c :: c in ins ==> c in Digits(k) || c == ' ' || c == '(' || c == ')';
    assert Suffixed(base, k, ext) == base + ins + ext;
    InsertKeepsClean(base, ins, ext);
  }

  lemma {:induction false} FirstFreeIsSuffixed(base: string, ext: string, seen: set<string>, i: nat, n: nat)
      returns (k: nat)
    ensures FirstFree(base, ext, seen, i, n) == Suffixed(base, k, ext)
    decreases n
  {
    if Suffixed(base, i, ext) in seen && n > 0 {
      k := FirstFreeIsSuffixed(base, ext, seen, i + 1, n - 1);
    } else {
      k := i;
    }
  }

  /** uniqueRelativePath keeps a path clean. */
  lemma UniqueIsClean(path: string, seen: set<string>)
    requires Clean(path) && path != ""
    ensures Clean(Unique(path, seen))
  {
    if path in seen {
      var (base, ext) := UniqueBase(path);
      assert base + ext == path;
      var k := FirstFreeIsSuffixed(base, ext, seen, 1, |seen|);
      SuffixedIsClean(base, k, ext);
    }
  }

  lemma SuffixBehind(dir: string, stem: string, k: nat, ext: string)
    ensures dir + Suffixed(stem, k, ext) == Suffixed(dir + stem, k, ext)
  {
    hide Digits;
  }

  function DirOf(path: string): string {
    if Parent(path) == "" then "" else Parent(path) + "/"
  }

  function StemOf(base: string): string {
    if |Extension(base)| <= |base| then base[..|base| - |Extension(base)|] else ""
  }

  lemma StemAndExtension(base: string)
    ensures base == StemOf(base) + Extension(base)
  {
    hide LastIndex;
  }

  lemma DirAndBase(path: string)
    requires path != "" && path[0] != '/'
    ensures path == DirOf(path) + BaseName(path)
  {
    hide LastIndex;
    var slash := LastIndex(path, '/');
    if slash >= 0 {
      assert slash != 0;
      assert path == path[..slash] + "/" + path[slash + 1..];
    }
  }

  lemma CandidateIs(path: string, k: nat)
    ensures Candidate(path, k) == DirOf(path) + Suffixed(StemOf(BaseName(path)), k, Extension(BaseName(path)))
  {
    hide LastIndex, Suffixed;
    assert "" + Suffixed(StemOf(BaseName(path)), k, Extension(BaseName(path)))
           == Suffixed(StemOf(BaseName(path)), k, Extension(BaseName(path)));
  }

  /** And so do the rename candidates: PlanConflict never refuses one of them as invalid. */
  lemma CandidateIsClean(path: string, k: nat)
    requires Clean(path) && path != ""
    ensures Clean(Candidate(path, k))
  {
    CleanHasNoLeadingSlash(path);
    hide *;
    var base := BaseName(path);
    var dir, stem, ext := DirOf(path), StemOf(base), Extension(base);
    StemAndExtension(base);
    DirAndBase(path);
    CandidateIs(path, k);
    assert dir + stem + ext == path;
    SuffixedIsClean(dir + stem, k, ext);
    SuffixBehind(dir, stem, k, ext);
  }

  // ----- what is planned

  lemma {:induction false} PlanPassesOccupied(path: string, disk: map<string, Entry>, i: nat, n: nat)
    requires Clean(path) && path != "" && 1 <= i <= n + 1 && n < MAX_CANDIDATES && Occupied(path, disk, n)
    ensures PlanFrom(path, disk, i) == PlanFrom(path, disk, n + 1)
    decreases n + 1 - i
  {
    hide Clean, Candidate;
    if i <= n {
      CandidateIsClean(path, i);
      PlanPassesOccupied(path, disk, i + 1, n);
    }
  }

  /** When the path is taken by a regular file: overwriting plans the path itself, refusing refuses, and
      renaming plans the first free candidate after a row of regular files, if it is among the first
      hundred thousand. */
  lemma TakenPathIsPlanned(path: string, disk: map<string, Entry>, n: nat)
    requires Clean(path) && path != "" && path in disk && disk[path] == Regular
    ensures Plan(path, Overwrite, disk) == Name(path)
    ensures Plan(path, FailIfExists, disk) == Refused(Conflict)
    ensures n < 100_000 && Occupied(path, disk, n) && Candidate(path, n + 1) !in disk ==>
              Plan(path, Rename, disk) == Name(Candidate(path, n + 1))
  {
    hide Clean, Candidate, Occupied;
    if n < 100_000 && Occupied(path, disk, n) && Candidate(path, n + 1) !in disk {
      PlanPassesOccupied(path, disk, 1, n);
      CandidateIsClean(path, n + 1);
    }
  }
}
