/** Where the files of a job end up, and when two of them share a part file. */
module NameLaws {
  import opened SegmentPlan
  import opened Text
  import opened Naming
  import opened JobNames

  // ----- where final paths lie

  predicate Below(dir: string, path: string) { dir + "/" <= path }

  /** A directory path that no suffix can split: a dot at most in front. */
  predicate DotSafe(dir: string) {
    dir != "" && forall k :: 1 <= k < |dir| ==> dir[k] != '.'
  }

  lemma CandidateStaysBelow(dir: string, path: string, i: nat)
    requires dir != "" && Below(dir, path)
    ensures Below(dir, Candidate(path, i))
  {
    var slash := LastIndex(path, '/');
    assert path[|dir|] == '/' && slash >= |dir|;
    assert Parent(path) + "/" == path[..slash + 1];
    assert dir + "/" <= path[..slash + 1];
    hide Suffixed, Extension, BaseName;
  }

  lemma {:induction false} PlanFromStaysBelow(dir: string, path: string, disk: map<string, Entry>, i: nat)
    requires dir != "" && Below(dir, path)
    ensures var r := PlanFrom(path, disk, i); r.Name? ==> Below(dir, r.path)
    decreases MAX_CANDIDATES + 1 - i
  {
    hide Candidate, Below, Clean;
    if i <= MAX_CANDIDATES {
      CandidateStaysBelow(dir, path, i);
      PlanFromStaysBelow(dir, path, disk, i + 1);
    }
  }

  lemma UniqueStaysBelow(dir: string, path: string, seen: set<string>)
    requires DotSafe(dir) && Below(dir, path)
    ensures Below(dir, Unique(path, seen))
  {
    if path in seen {
      var (base, ext) := UniqueBase(path);
      var k := FirstFreeIsSuffixed(base, ext, seen, 1, |seen|);
      var dot := LastIndex(path, '.');
      assert path[|dir|] == '/' && forall j :: 0 <= j < |dir| ==> path[j] == dir[j];
      forall j | 1 <= j < |dir| ensures path[j] != '.' { assert path[j] == dir[j]; }
      assert dot > 0 ==> dot > |dir|;
      assert dir + "/" <= base;
      assert Suffixed(base, k, ext) == base + (" (" + Digits(k) + ")" + ext);
    }
  }

  lemma DotSafeIsName(dir: string)
    requires DotSafe(dir)
    ensures dir != ""
  {
  }

  lemma {:induction false} ChosenStaysBelow(dir: string, start: string, policy: Policy, disk: map<string, Entry>,
                                            seen: set<string>)
    requires DotSafe(dir) && Below(dir, start)
    ensures var r := Chosen(start, policy, disk, seen); r.Name? ==> Below(dir, r.path)
    decreases Room(start, disk), start in seen
  {
    hide Below, Room, Unique, Clean, PlanFrom, DotSafe;
    assert dir != "" by { DotSafeIsName(dir); }
    PlanFromStaysBelow(dir, start, disk, 1);
    var planned := Plan(start, policy, disk);
    assert planned.Name? ==> Below(dir, planned.path);
    hide Plan;
    if planned.Name? && planned.path in seen {
      UniqueStaysBelow(dir, planned.path, seen);
      RetryMovesOn(start, policy, disk, seen, planned.path);
      ChosenStaysBelow(dir, Unique(planned.path, seen), policy, disk, seen);
    }
  }

  /** Below a destination with no dot past its first character every file of a job stays below it. */
  lemma FinalsStayBelow(inputs: seq<string>, destination: string, policy: Policy, disk: map<string, Entry>, i: nat)
    requires DotSafe(destination) && Named(inputs, destination, policy, disk).Ok? && i < |inputs|
    requires Named(inputs, destination, policy, disk).value[i].remote != ""
    ensures Below(destination, Named(inputs, destination, policy, disk).value[i].final)
  {
    NamedRows(inputs, destination, policy, disk, i);
    var rows := Named(inputs, destination, policy, disk).value;
    var start := JoinRelative(destination, rows[i].remote);
    hide Chosen, Named;
    assert start == destination + "/" + rows[i].remote;
    ChosenStaysBelow(destination, start, policy, disk, Finals(rows[..i]));
  }

  // ----- when remote paths collide

  /** No input is empty or already names a place below the destination. */
  predicate Outside(inputs: seq<string>, destination: string) {
    forall i :: 0 <= i < |inputs| ==> inputs[i] != "" && !Below(destination, inputs[i])
  }

  lemma {:induction false} FinalsAreBelow(rows: seq<Names>, dir: string)
    requires forall i :: 0 <= i < |rows| ==> Below(dir, rows[i].final)
    ensures forall p :: p in Finals(rows) ==> Below(dir, p)
  {
    hide Below;
    if rows != [] { FinalsAreBelow(rows[..|rows| - 1], dir); }
  }

  /** Then every remote path is the input itself. */
  lemma {:induction false} RemotesAreInputs(inputs: seq<string>, destination: string, policy: Policy,
                                            disk: map<string, Entry>, n: nat)
    requires DotSafe(destination) && Outside(inputs, destination) && Named(inputs, destination, policy, disk).Ok?
    requires n <= |inputs|
    ensures var rows := Named(inputs, destination, policy, disk).value;
            && |rows| == |inputs|
            && forall i :: 0 <= i < n ==> rows[i].remote == inputs[i] && Below(destination, rows[i].final)
  {
    hide Named, Chosen, Unique, Finals, Below;
    if n > 0 {
      var rows, i := Named(inputs, destination, policy, disk).value, n - 1;
      RemotesAreInputs(inputs, destination, policy, disk, i);
      NamedRows(inputs, destination, policy, disk, i);
      FinalsAreBelow(rows[..i], destination);
      UniqueUnchanged(inputs[i], Finals(rows[..i]));
      FinalsStayBelow(inputs, destination, policy, disk, i);
    }
  }

  /** Exactly when the files of such a job get distinct remote paths, and so part files of their own:
      the inputs are pairwise distinct. The set the loop keeps holds final paths, not remote ones. */
  lemma RemotesDistinctIff(inputs: seq<string>, destination: string, policy: Policy, disk: map<string, Entry>)
    requires DotSafe(destination) && Outside(inputs, destination) && Named(inputs, destination, policy, disk).Ok?
    ensures var rows := Named(inputs, destination, policy, disk).value;
            && |rows| == |inputs|
            && (DistinctRemotes(rows) <==>
                (forall i, j :: 0 <= i < j < |inputs| ==> inputs[i] != inputs[j]))
  {
    RemotesAreInputs(inputs, destination, policy, disk, |inputs|);
    hide Named;
  }

  ghost predicate DistinctRemotes(rows: seq<Names>) {
    forall i, j :: 0 <= i < j < |rows| ==> rows[i].remote != rows[j].remote
  }

  /** At the root two files of a job share a remote path only under the rename policy, and only a path
      that is on disk. */
  lemma RootCollisionNeedsDisk(inputs: seq<string>, policy: Policy, disk: map<string, Entry>, i: nat, j: nat)
    requires Named(inputs, "", policy, disk).Ok? && i < j < |inputs|
    ensures var rows := Named(inputs, "", policy, disk).value;
            rows[i].remote == rows[j].remote ==> policy == Rename && rows[i].remote in disk
  {
    NamedRows(inputs, "", policy, disk, i);
    NamedRows(inputs, "", policy, disk, j);
    var rows := Named(inputs, "", policy, disk).value;
    UniqueIsFresh(inputs[i], Finals(rows[..i]));
    UniqueIsFresh(inputs[j], Finals(rows[..j]));
    FinalsMembers(rows[..j]);
    assert rows[..j][i] == rows[i];
    if policy != Rename || rows[i].remote !in disk {
      KeptUnlessRenamed(rows[i].remote, policy, disk, Finals(rows[..i]));
    }
    hide Named, Unique, Finals, Chosen;
  }

  lemma KeptUnlessRenamed(start: string, policy: Policy, disk: map<string, Entry>, seen: set<string>)
    requires start !in seen && (policy != Rename || start !in disk)
    ensures var r := Chosen(start, policy, disk, seen); r.Name? ==> r.path == start
  {
    hide Clean, Unique;
  }

  /** The same input twice at the root, with a file of that name on disk: both are renamed on the same
      remote path. */
  method SameInputTwiceAtRoot(input: string) returns (r: Result<seq<Names>>)
    requires input != "" && Clean(input)
    ensures var first := Candidate(input, 1);
            r == Ok([Names(input, first), Names(input, Unique(first, {first}))])
  {
    r := NameFiles([input, input], "", Rename, map[input := Regular]);
    TwiceAtRoot(input);
  }

  lemma TwiceAtRoot(input: string)
    requires input != "" && Clean(input)
    ensures var first := Candidate(input, 1);
            Named([input, input], "", Rename, map[input := Regular])
            == Ok([Names(input, first), Names(input, Unique(first, {first}))])
  {
    hide Named, Finals, Unique, Chosen, Clean, Candidate;
    var disk, first := map[input := Regular], Candidate(input, 1);
    var second := Unique(first, {first});
    FirstAtRoot(input);
    SecondAtRoot(input);
    UniqueUnchanged(input, {first});
    CandidateIsLonger(input, 1);
    var rows := [Names(input, first)];
    FinalsOfOne(rows[0]);
    assert [input, input][..1] == [input] && [input, input][..2] == [input, input];
    NamedStep([input, input], 1, "", Rename, disk);
    assert OneMore(rows, input, "", Rename, disk) == Ok(rows + [Names(input, second)]);
    assert rows + [Names(input, second)] == [rows[0], Names(input, second)];
  }

  lemma FinalsOfOne(row: Names)
    ensures Finals([row]) == {row.final}
  {
    FinalsOfOneMore([], row);
    assert [] + [row] == [row];
  }

  lemma FirstAtRoot(input: string)
    requires input != "" && Clean(input)
    ensures Named([input], "", Rename, map[input := Regular]) == Ok([Names(input, Candidate(input, 1))])
  {
    var disk := map[input := Regular];
    var none: seq<Names> := [];
    TakenAtRoot(input);
    UniqueUnchanged(input, {});
    NothingNamed("", Rename, disk);
    assert [input][..0] == [] && [input][..1] == [input] && Finals(none) == {};
    hide Named, Finals, Unique, Chosen, Clean, Candidate;
    NamedStep([input], 0, "", Rename, disk);
    var row := Names(input, Candidate(input, 1));
    assert OneMore(none, input, "", Rename, disk) == Ok(none + [row]);
    assert none + [row] == [row];
  }

  lemma TakenAtRoot(input: string)
    requires input != "" && Clean(input)
    ensures Plan(input, Rename, map[input := Regular]) == Name(Candidate(input, 1))
    ensures Chosen(input, Rename, map[input := Regular], {}) == Name(Candidate(input, 1))
  {
    hide Clean, Candidate, Chosen;
    CandidateIsLonger(input, 1);
    CandidateIsClean(input, 1);
    assert PlanFrom(input, map[input := Regular], 1) == Name(Candidate(input, 1));
    TakesPlanned(input, Rename, map[input := Regular], {});
  }

  lemma TakesPlanned(start: string, policy: Policy, disk: map<string, Entry>, seen: set<string>)
    ensures var p := Plan(start, policy, disk);
            p.Refused? || p.path !in seen ==> Chosen(start, policy, disk, seen) == p
  {
    hide Plan, Unique;
  }

  lemma SecondAtRoot(input: string)
    requires input != "" && Clean(input)
    ensures var first := Candidate(input, 1);
            Chosen(input, Rename, map[input := Regular], {first}) == Name(Unique(first, {first}))
  {
    var disk, first := map[input := Regular], Candidate(input, 1);
    TakenAtRoot(input);
    CandidateIsLonger(input, 1);
    CandidateIsClean(input, 1);
    UniqueIsFresh(first, {first});
    UniqueIsClean(first, {first});
    FreeIsChosen(Unique(first, {first}), Rename, disk, {first});
    RetriesOnce(input, Rename, disk, {first}, first);
  }

  lemma RetriesOnce(start: string, policy: Policy, disk: map<string, Entry>, seen: set<string>, planned: string)
    requires Plan(start, policy, disk) == Name(planned) && planned in seen
    ensures Chosen(start, policy, disk, seen) == Chosen(Unique(planned, seen), policy, disk, seen)
  {
    hide Plan, Unique;
  }

  ghost predicate RootDistinct(inputs: seq<string>, policy: Policy, disk: map<string, Entry>) {
    var r := Named(inputs, "", policy, disk);
    r.Ok? ==> DistinctRemotes(r.value)
  }

  /** Exactly which policies keep remote paths distinct in every job at the root: all but rename. */
  lemma RootRemotesDistinctIff(policy: Policy)
    ensures (forall inputs, disk :: RootDistinct(inputs, policy, disk)) <==> policy != Rename
  {
    if policy == Rename {
      RootCollides();
    } else {
      forall inputs, disk ensures RootDistinct(inputs, policy, disk) { RootKeepsApart(inputs, policy, disk); }
    }
  }

  lemma RootCollides()
    ensures !RootDistinct(["x", "x"], Rename, map["x" := Regular])
  {
    assert Clean("x") by { SplitOne("x"); }
    hide Clean, Named, Unique, Candidate;
    TwiceAtRoot("x");
    var rows := Named(["x", "x"], "", Rename, map["x" := Regular]).value;
    assert rows[0].remote == rows[1].remote;
  }

  lemma RootKeepsApart(inputs: seq<string>, policy: Policy, disk: map<string, Entry>)
    requires policy != Rename
    ensures RootDistinct(inputs, policy, disk)
  {
    hide Named;
    var r := Named(inputs, "", policy, disk);
    if r.Ok? {
      forall i, j | 0 <= i < j < |r.value| ensures r.value[i].remote != r.value[j].remote {
        RootCollisionNeedsDisk(inputs, policy, disk, i, j);
      }
    }
  }

  // ----- when a suffix leaves the directory

  lemma LastIndexIs(s: string, c: char, i: int)
    requires -1 <= i < |s| && (i >= 0 ==> s[i] == c) && forall j :: i < j < |s| ==> s[j] != c
    ensures LastIndex(s, c) == i
  {
  }

  /** A rename candidate stays in the directory and keeps the extension, and differs from the path. */
  lemma CandidateKeepsPlace(path: string, k: nat)
    requires Clean(path) && path != ""
    ensures Parent(Candidate(path, k)) == Parent(path) && Candidate(path, k) != path
    ensures Extension(BaseName(Candidate(path, k))) == Extension(BaseName(path))
  {
    CleanHasNoLeadingSlash(path);
    CandidateIsLonger(path, k);
    var name := Suffixed(StemOf(BaseName(path)), k, Extension(BaseName(path)));
    StemAndExtension(BaseName(path));
    NameInDirectory(path, name, k);
    ExtensionOfSuffixed(BaseName(path), k);
    hide *;
    CandidateIs(path, k);
  }

  /** A suffix adds blanks, brackets and digits only. */
  lemma SuffixAddsPlain(stem: string, k: nat, c: char)
    requires c == '/' || c == '.'
    ensures c !in " (" + Digits(k) + ")"
    ensures c !in stem ==> c !in stem + (" (" + Digits(k) + ")")
  {
    DigitsArePlain(k);
    hide *;
    var d := Digits(k);
    assert forall x :: x in " (" + d + ")" ==> x in d || x == ' ' || x == '(' || x == ')';
  }

  lemma SuffixedHasNoSlash(stem: string, k: nat, ext: string)
    requires '/' !in stem && '/' !in ext
    ensures '/' !in Suffixed(stem, k, ext)
  {
    SuffixAddsPlain(stem, k, '/');
    assert Suffixed(stem, k, ext) == (stem + (" (" + Digits(k) + ")")) + ext;
    hide *;
  }

  lemma NameInDirectory(path: string, name: string, k: nat)
    requires path != "" && path[0] != '/'
    requires name == Suffixed(StemOf(BaseName(path)), k, Extension(BaseName(path)))
    ensures Parent(DirOf(path) + name) == Parent(path) && BaseName(DirOf(path) + name) == name
  {
    var base := BaseName(path);
    assert '/' !in base;
    hide *;
    StemAndExtension(base);
    assert forall c :: c in StemOf(base) || c in Extension(base) ==> c in base;
    SuffixedHasNoSlash(StemOf(base), k, Extension(base));
    LastOfDirectory(path, name);
  }

  lemma LastOfDirectory(path: string, name: string)
    requires path != "" && path[0] != '/' && '/' !in name
    ensures Parent(DirOf(path) + name) == Parent(path) && BaseName(DirOf(path) + name) == name
  {
    var s, slash := DirOf(path) + name, |DirOf(path)| - 1;
    LastIndexIs(s, '/', slash);
    hide LastIndex;
  }

  lemma ExtensionOfSuffixed(base: string, k: nat)
    ensures Extension(Suffixed(StemOf(base), k, Extension(base))) == Extension(base)
  {
    var stem, ext, ins := StemOf(base), Extension(base), " (" + Digits(k) + ")";
    var name := Suffixed(stem, k, ext);
    StemAndExtension(base);
    SuffixAddsPlain(stem, k, '.');
    assert name == stem + ins + ext;
    hide Digits, Suffixed, StemOf;
    ExtensionBehind(base, stem, ins, ext);
  }

  lemma ExtensionBehind(base: string, stem: string, ins: string, ext: string)
    requires base == stem + ext && ext == Extension(base) && '.' !in ins && ins != ""
    ensures Extension(stem + ins + ext) == ext
  {
    var name := stem + ins + ext;
    if ext != "" {
      LastIndexIs(name, '.', |name| - |ext|);
    } else {
      assert name == base + ins;
      LastIndexIs(name, '.', LastIndex(base, '.'));
    }
    hide LastIndex;
  }

  /** uniqueRelativePath splits at the last dot of the whole path. It keeps the file in its directory
      exactly when the name is free, or that dot is not inside the directory part. */
  lemma UniqueKeepsDirectoryIff(path: string, seen: set<string>)
    ensures Parent(Unique(path, seen)) == Parent(path) <==>
              path !in seen || !(0 < LastIndex(path, '.') < LastIndex(path, '/'))
  {
    if path in seen {
      var (base, ext) := UniqueBase(path);
      var k := FirstFreeIsSuffixed(base, ext, seen, 1, |seen|);
      InsertedParent(path, base, ext, k);
    }
  }

  lemma InsertedParent(path: string, base: string, ext: string, k: nat)
    requires (base, ext) == UniqueBase(path)
    ensures Parent(Suffixed(base, k, ext)) == Parent(path) <==> !(0 < LastIndex(path, '.') < LastIndex(path, '/'))
  {
    DigitsArePlain(k);
    DotAndSlash(path, base, ext);
    var inserted := " (" + Digits(k) + ")";
    assert '/' !in inserted && |inserted| > 0 by {
      assert forall c :: c in inserted ==> c in Digits(k) || c == ' ' || c == '(' || c == ')';
    }
    assert Suffixed(base, k, ext) == base + inserted + ext;
    hide *;
    InsertedSlash(path, base, inserted, ext);
    ParentOfInserted(path, base, inserted, ext);
  }

  /** The suffix goes behind the last slash unless the last dot is before it. */
  lemma DotAndSlash(path: string, base: string, ext: string)
    requires (base, ext) == UniqueBase(path)
    ensures path == base + ext && (LastIndex(path, '/') < |base|
              <==> !(0 < LastIndex(path, '.') < LastIndex(path, '/')))
  {
    hide LastIndex;
  }

  lemma ParentOfInserted(path: string, base: string, inserted: string, ext: string)
    requires path == base + ext && |inserted| > 0
    requires var slash := LastIndex(path, '/');
             LastIndex(base + inserted + ext, '/') == if slash < |base| then slash else slash + |inserted|
    ensures Parent(base + inserted + ext) == Parent(path) <==> LastIndex(path, '/') < |base|
  {
    hide LastIndex;
    var slash, r := LastIndex(path, '/'), base + inserted + ext;
    if 0 <= slash < |base| { assert r[..slash] == base[..slash] == path[..slash]; }
  }

  lemma InsertedSlash(path: string, base: string, inserted: string, ext: string)
    requires path == base + ext && '/' !in inserted
    ensures var slash := LastIndex(path, '/');
            LastIndex(base + inserted + ext, '/') == if slash < |base| then slash else slash + |inserted|
  {
    hide LastIndex;
    var slash, r := LastIndex(path, '/'), base + inserted + ext;
    var moved := if slash < |base| then slash else slash + |inserted|;
    forall j | moved < j < |r| ensures r[j] != '/' {
      if j < |base| { assert r[j] == path[j]; }
      else if j < |base| + |inserted| { assert r[j] == inserted[j - |base|]; assert r[j] in inserted; }
      else { assert r[j] == path[j - |inserted|]; }
    }
    if slash >= 0 { assert r[moved] == path[slash]; }
    LastIndexIs(r, '/', moved);
  }

  /** The same input twice below any destination, on an empty disk: the two files get one remote path,
      and so one part file. */
  method SameInputTwice(destination: string, input: string, policy: Policy) returns (r: Result<seq<Names>>)
    requires destination != "" && input != "" && policy != Unknown && Clean(input)
    requires Clean(destination + "/" + input)
    ensures var start := destination + "/" + input;
            r == Ok([Names(input, start), Names(input, Unique(start, {start}))])
  {
    r := NameFiles([input, input], destination, policy, map[]);
    FirstNamed(destination, input, policy);
    SecondNamed(destination, input, policy);
  }

  lemma FirstNamed(destination: string, input: string, policy: Policy)
    requires destination != "" && input != "" && policy != Unknown && Clean(input)
    requires Clean(destination + "/" + input)
    ensures Named([input], destination, policy, map[]) == Ok([Names(input, destination + "/" + input)])
  {
    var start := destination + "/" + input;
    FreeIsChosen(start, policy, map[], {});
    NothingNamed(destination, policy, map[]);
    assert [input][..0] == [];
    UniqueUnchanged(input, {});
    var none: seq<Names> := [];
    assert Finals(none) == {};
    hide Clean, Chosen, Finals, Unique;
    assert OneMore(none, input, destination, policy, map[]) == Ok(none + [Names(input, start)]);
    assert none + [Names(input, start)] == [Names(input, start)];
  }

  lemma SecondNamed(destination: string, input: string, policy: Policy)
    requires destination != "" && input != "" && policy != Unknown && Clean(input)
    requires Clean(destination + "/" + input)
    ensures var start := destination + "/" + input;
            Named([input, input], destination, policy, map[])
            == Ok([Names(input, start), Names(input, Unique(start, {start}))])
  {
    var start := destination + "/" + input;
    var seen, next, first := {start}, Unique(start, {start}), Names(input, start);
    UniqueIsFresh(start, seen);
    UniqueIsClean(start, seen);
    FreeIsChosen(start, policy, map[], seen);
    FreeIsChosen(next, policy, map[], seen);
    FirstNamed(destination, input, policy);
    assert [input, input][..1] == [input] && |start| > |input|;
    FinalsOfOneMore([], first);
    assert [] + [first] == [first];
    UniqueUnchanged(input, seen);
    hide Clean, Chosen, Unique;
    assert Finals([first]) == seen;
    assert OneMore([first], input, destination, policy, map[]) == Ok([first] + [Names(input, next)]);
    assert [first] + [Names(input, next)] == [first, Names(input, next)];
    NamedStep([input, input], 1, destination, policy, map[]);
    assert [input, input][..2] == [input, input];
  }

  /** Below a destination with a dot in its name, the second file's final path leaves the destination. */
  method LeavesDestination() returns (r: Result<seq<Names>>)
    ensures r == Ok([Names("a", "v1.0/a"), Names("a", "v1 (1).0/a")]) && !Below("v1.0", "v1 (1).0/a")
  {
    VersionedNames();
    assert "v1.0" + "/" + "a" == "v1.0/a";
    r := SameInputTwice("v1.0", "a", Rename);
    assert "v1 (1).0/a"[2] != ("v1.0" + "/")[2];
  }

  lemma VersionedNames()
    ensures Clean("a") && Clean("v1.0/a") && Unique("v1.0/a", {"v1.0/a"}) == "v1 (1).0/a" && Clean("v1 (1).0/a")
  {
    hide Clean, Unique;
    PartsAreClean("v1.0", "a");
    PartsAreClean("v1 (1).0", "a");
    assert "v1.0/a" == "v1.0" + "/" + "a" && "v1 (1).0/a" == "v1 (1).0" + "/" + "a";
    VersionedUnique();
  }

  lemma PartsAreClean(dir: string, name: string)
    requires GoodComponent(dir) && GoodComponent(name)
    ensures Clean(name) && Clean(dir + "/" + name)
  {
    SplitOne(name);
    SplitTwo(dir, name);
    hide Split;
  }

  lemma VersionedUnique()
    ensures Unique("v1.0/a", {"v1.0/a"}) == "v1 (1).0/a"
  {
    var path, next := "v1.0/a", "v1 (1).0/a";
    assert LastIndex(path, '.') == 2 by { LastIndexIs(path, '.', 2); }
    hide LastIndex;
    assert path[..2] == "v1" && path[2..] == ".0/a";
    assert Digits(1) == "1" && Suffixed("v1", 1, ".0/a") == next && next[2] != path[2];
  }

  /** Every final path with a remote path of its own stays below the destination. */
  ghost predicate StayBelow(rows: seq<Names>, destination: string) {
    forall i :: 0 <= i < |rows| && rows[i].remote != "" ==> Below(destination, rows[i].final)
  }

  /** Exactly which destinations keep the files of every job below them, for all inputs, disks and
      policies: those with no dot past the first character. */
  lemma FinalsStayBelowIff(destination: string)
    requires destination != "" && Clean(destination)
    ensures (forall inputs, policy, disk :: Named(inputs, destination, policy, disk).Ok? ==>
               StayBelow(Named(inputs, destination, policy, disk).value, destination)) <==> DotSafe(destination)
  {
    if DotSafe(destination) {
      forall inputs, policy, disk | Named(inputs, destination, policy, disk).Ok?
        ensures StayBelow(Named(inputs, destination, policy, disk).value, destination)
      {
        var rows := Named(inputs, destination, policy, disk).value;
        forall i | 0 <= i < |rows| && rows[i].remote != "" ensures Below(destination, rows[i].final) {
          FinalsStayBelow(inputs, destination, policy, disk, i);
        }
      }
    } else {
      DestinationIsClean(destination);
      SecondNamed(destination, "a", Overwrite);
      SecondLeaves(destination);
      hide Named, Clean, Unique, Below, DotSafe;
      var start := destination + "/" + "a";
      var rows := Named(["a", "a"], destination, Overwrite, map[]).value;
      assert rows[1] == Names("a", Unique(start, {start}));
    }
  }

  lemma DestinationIsClean(destination: string)
    requires destination != "" && Clean(destination)
    ensures Clean("a") && Clean(destination + "/" + "a")
  {
    SplitOne("a");
    SplitAppended(destination, "a");
  }

  lemma SecondLeaves(destination: string)
    requires destination != "" && !DotSafe(destination)
    ensures var start := destination + "/" + "a"; !Below(destination, Unique(start, {start}))
  {
    var start := destination + "/" + "a";
    var k :| 1 <= k < |destination| && destination[k] == '.';
    assert start[k] == '.';
    var dot := LastIndex(start, '.');
    assert dot >= k && dot < |destination|;
    var (base, ext) := UniqueBase(start);
    var n := FirstFreeIsSuffixed(base, ext, {start}, 1, 1);
    assert Suffixed(base, n, ext)[dot] == ' ' && start[dot] == '.';
  }
}
