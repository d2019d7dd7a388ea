/** The naming loop of handleCreateDownload over all files of a job. */
module JobNames {
  import opened SegmentPlan
  import opened Text
  import opened Naming

  /** A file row's two names: the job-scoped part file is derived from remote. */
  datatype Names = Names(remote: string, final: string)

  function Finals(rows: seq<Names>): set<string> {
    if rows == [] then {} else Finals(rows[..|rows| - 1]) + {rows[|rows| - 1].final}
  }

  lemma {:induction false} FinalsMembers(rows: seq<Names>)
    ensures forall i :: 0 <= i < |rows| ==> rows[i].final in Finals(rows)
  {
    if rows != [] {
      var init := rows[..|rows| - 1];
      FinalsMembers(init);
      forall i | 0 <= i < |rows| ensures rows[i].final in Finals(rows) {
        if i < |rows| - 1 { assert init[i] == rows[i]; }
      }
    }
  }

  /** Every row's final path is clean and usable, and differs from the ones before it. */
  ghost predicate GoodFinals(rows: seq<Names>, policy: Policy, disk: map<string, Entry>) {
    forall i :: 0 <= i < |rows| ==>
      && Clean(rows[i].final) && rows[i].final != "" && (policy == Rename ==> rows[i].final !in disk)
      && rows[i].final !in Finals(rows[..i])
  }

  /** Each remote path is its input made unique against the final paths chosen before it. */
  ghost predicate RemotesFrom(rows: seq<Names>, inputs: seq<string>) {
    |rows| <= |inputs| && forall i :: 0 <= i < |rows| ==> rows[i].remote == Unique(inputs[i], Finals(rows[..i]))
  }

  lemma RowAdded(rows: seq<Names>, row: Names, inputs: seq<string>, policy: Policy, disk: map<string, Entry>)
    requires GoodFinals(rows, policy, disk) && RemotesFrom(rows, inputs) && |rows| < |inputs|
    requires row.remote == Unique(inputs[|rows|], Finals(rows)) && row.final !in Finals(rows)
    requires Clean(row.final) && row.final != "" && (policy == Rename ==> row.final !in disk)
    ensures GoodFinals(rows + [row], policy, disk) && RemotesFrom(rows + [row], inputs)
    ensures Finals(rows + [row]) == Finals(rows) + {row.final}
  {
    hide Clean, Unique, Finals;
    var next := rows + [row];
    assert next[..|rows|] == rows;
    forall i | 0 <= i < |next|
      ensures Clean(next[i].final) && next[i].final != "" && (policy == Rename ==> next[i].final !in disk)
      ensures next[i].final !in Finals(next[..i]) && next[i].remote == Unique(inputs[i], Finals(next[..i]))
    {
      if i < |rows| { assert next[..i] == rows[..i]; }
    }
    FinalsOfOneMore(rows, row);
  }

  lemma FinalsOfOneMore(rows: seq<Names>, row: Names)
    ensures Finals(rows + [row]) == Finals(rows) + {row.final}
  {
    assert (rows + [row])[..|rows|] == rows;
  }

  /** Good final paths are pairwise distinct. */
  lemma GoodFinalsAreDistinct(rows: seq<Names>, policy: Policy, disk: map<string, Entry>)
    requires GoodFinals(rows, policy, disk)
    ensures forall i, j :: 0 <= i < j < |rows| ==> rows[i].final != rows[j].final
  {
    hide Clean, Finals;
    forall i, j | 0 <= i < j < |rows| ensures rows[i].final != rows[j].final {
      FinalsMembers(rows[..j]);
      assert rows[..j][i] == rows[i];
    }
  }

  /** Inputs that need no renaming: clean, free on disk and pairwise distinct. */
  ghost predicate Plain(inputs: seq<string>, disk: map<string, Entry>) {
    && (forall i :: 0 <= i < |inputs| ==> Clean(inputs[i]) && inputs[i] != "" && inputs[i] !in disk)
    && (forall i, j :: 0 <= i < j < |inputs| ==> inputs[i] != inputs[j])
  }

  function Unrenamed(inputs: seq<string>): (rows: seq<Names>)
    ensures |rows| == |inputs|
  {
    seq(|inputs|, i requires 0 <= i < |inputs| => Names(inputs[i], inputs[i]))
  }

  lemma {:induction false} UnrenamedFinals(inputs: seq<string>)
    ensures forall p :: p in Finals(Unrenamed(inputs)) <==> p in inputs
  {
    if inputs != [] {
      var init := inputs[..|inputs| - 1];
      UnrenamedFinals(init);
      assert Unrenamed(inputs)[..|init|] == Unrenamed(init);
      assert inputs == init + [inputs[|init|]];
    }
  }

  lemma NextUnrenamed(inputs: seq<string>, disk: map<string, Entry>, i: nat)
    requires Plain(inputs, disk) && i < |inputs|
    ensures inputs[i] !in Finals(Unrenamed(inputs[..i]))
    ensures Clean(inputs[i]) && inputs[i] != "" && inputs[i] !in disk
    ensures Unrenamed(inputs[..i + 1]) == Unrenamed(inputs[..i]) + [Names(inputs[i], inputs[i])]
  {
    hide Clean, Finals;
    UnrenamedFinals(inputs[..i]);
  }

  /** The naming loop as a function of the inputs. */
  ghost function Named(inputs: seq<string>, destination: string, policy: Policy, disk: map<string, Entry>)
      : (r: Result<seq<Names>>)
    ensures r.Ok? ==> |r.value| == |inputs|
    decreases |inputs|
  {
    if inputs == [] then Ok([])
    else
      var n := |inputs| - 1;
      var before := Named(inputs[..n], destination, policy, disk);
      if before.Err? then Err else OneMore(before.value, inputs[n], destination, policy, disk)
  }

  /** One turn: the rows so far and the next input. */
  ghost function OneMore(rows: seq<Names>, input: string, destination: string, policy: Policy, disk: map<string, Entry>)
      : Result<seq<Names>>
  {
    var remote := Unique(input, Finals(rows));
    var final := Chosen(JoinRelative(destination, remote), policy, disk, Finals(rows));
    if !Clean(input) || final.Refused? then Err else Ok(rows + [Names(remote, final.path)])
  }

  lemma {:induction false} NamedFails(inputs: seq<string>, k: nat, destination: string, policy: Policy,
                                      disk: map<string, Entry>)
    requires k <= |inputs| && Named(inputs[..k], destination, policy, disk).Err?
    ensures Named(inputs, destination, policy, disk).Err?
    decreases |inputs|
  {
    hide OneMore;
    if k < |inputs| {
      var n := |inputs| - 1;
      assert inputs[..n][..k] == inputs[..k];
      NamedFails(inputs[..n], k, destination, policy, disk);
    } else {
      assert inputs[..k] == inputs;
    }
  }

  /** The naming loop of handleCreateDownload: if it succeeds, the job's final paths are pairwise
      distinct, clean, and under the rename policy free on disk; each remote path is the input made
      unique against the final paths chosen before it. At the root, inputs that need no renaming
      are kept as they are. */
  method NameFiles(inputs: seq<string>, destination: string, policy: Policy, disk: map<string, Entry>)
      returns (r: Result<seq<Names>>)
    ensures r == Named(inputs, destination, policy, disk)
    ensures r.Ok? ==> |r.value| == |inputs| && GoodFinals(r.value, policy, disk) && RemotesFrom(r.value, inputs)
    ensures r.Ok? ==> forall i, j :: 0 <= i < j < |inputs| ==> r.value[i].final != r.value[j].final
    ensures Plain(inputs, disk) && destination == "" && policy != Unknown ==> r == Ok(Unrenamed(inputs))
  {
    hide Clean, GoodFinals, RemotesFrom, Finals, Unique, Plain, Chosen, Named, Unrenamed, JoinRelative;
    NamedIsGood(inputs, destination, policy, disk);
    if Plain(inputs, disk) && destination == "" && policy != Unknown { PlainIsKept(inputs, policy, disk, |inputs|); }
    var rows: seq<Names> := [];
    var seen: set<string> := {};
    assert inputs[..0] == [] && inputs[..|inputs|] == inputs;
    NothingNamed(destination, policy, disk);
    for i := 0 to |inputs|
      invariant |rows| == i && seen == Finals(rows) && Named(inputs[..i], destination, policy, disk) == Ok(rows)
    {
      NamedStep(inputs, i, destination, policy, disk);
      var relative := SanitizeRelativePath(inputs[i]);
      if relative.Err? { return Err; }
      var remote := UniqueRelativePath(relative.value, seen);
      var chosen := ChooseFinal(JoinRelative(destination, remote), policy, disk, seen);
      if chosen.Refused? { return Err; }
      FinalsOfOneMore(rows, Names(remote, chosen.path));
      rows := rows + [Names(remote, chosen.path)];
      seen := seen + {chosen.path};
    }
    return Ok(rows);
  }

  lemma NothingNamed(destination: string, policy: Policy, disk: map<string, Entry>)
    ensures Named([], destination, policy, disk) == Ok([]) && Finals([]) == {}
  {
  }

  lemma {:induction false} ChosenIsGood(start: string, policy: Policy, disk: map<string, Entry>, seen: set<string>)
    ensures var r := Chosen(start, policy, disk, seen);
            r.Name? ==> r.path !in seen && Clean(r.path) && r.path != "" && (policy == Rename ==> r.path !in disk)
    decreases Room(start, disk), start in seen
  {
    hide Room, Unique;
    PlanIsGood(start, policy, disk);
    hide Plan, Clean;
    var planned := Plan(start, policy, disk);
    if planned.Name? && planned.path in seen {
      RetryMovesOn(start, policy, disk, seen, planned.path);
      ChosenIsGood(Unique(planned.path, seen), policy, disk, seen);
    }
  }

  lemma PlanIsGood(path: string, policy: Policy, disk: map<string, Entry>)
    ensures var r := Plan(path, policy, disk);
            r.Name? ==> Clean(r.path) && r.path != "" && (policy == Rename ==> r.path !in disk)
  {
    hide Candidate, Clean;
    PlanFromIsGood(path, disk, 1);
    PlanIsNoShorter(path, policy, disk);
  }

  lemma {:induction false} PlanFromIsGood(path: string, disk: map<string, Entry>, i: nat)
    ensures var r := PlanFrom(path, disk, i); r.Name? ==> Clean(r.path) && r.path !in disk
    decreases MAX_CANDIDATES + 1 - i
  {
    hide Candidate, Clean;
    if i <= MAX_CANDIDATES { PlanFromIsGood(path, disk, i + 1); }
  }

  lemma {:induction false} NamedIsGood(inputs: seq<string>, destination: string, policy: Policy,
                                       disk: map<string, Entry>)
    ensures var r := Named(inputs, destination, policy, disk);
            r.Ok? ==> && |r.value| == |inputs| && GoodFinals(r.value, policy, disk) && RemotesFrom(r.value, inputs)
                      && forall i, j :: 0 <= i < j < |inputs| ==> r.value[i].final != r.value[j].final
    decreases |inputs|
  {
    hide OneMore, GoodFinals, RemotesFrom;
    var r := Named(inputs, destination, policy, disk);
    if r.Ok? {
      if inputs == [] {
        NothingIsGood(inputs, policy, disk);
      } else {
        var n := |inputs| - 1;
        NamedIsGood(inputs[..n], destination, policy, disk);
        var rows := Named(inputs[..n], destination, policy, disk).value;
        SamePrefix(rows, inputs[..n], inputs);
        OneMoreIsGood(rows, inputs, destination, policy, disk);
      }
      GoodFinalsAreDistinct(r.value, policy, disk);
    }
  }

  lemma NothingIsGood(inputs: seq<string>, policy: Policy, disk: map<string, Entry>)
    ensures GoodFinals([], policy, disk) && RemotesFrom([], inputs)
  {
  }

  lemma OneMoreIsGood(rows: seq<Names>, inputs: seq<string>, destination: string, policy: Policy,
                      disk: map<string, Entry>)
    requires GoodFinals(rows, policy, disk) && RemotesFrom(rows, inputs) && |rows| < |inputs|
    ensures var r := OneMore(rows, inputs[|rows|], destination, policy, disk);
            r.Ok? ==> |r.value| == |rows| + 1 && GoodFinals(r.value, policy, disk) && RemotesFrom(r.value, inputs)
  {
    hide GoodFinals, RemotesFrom, Clean, Unique, Chosen, Finals;
    var r := OneMore(rows, inputs[|rows|], destination, policy, disk);
    if r.Ok? {
      var row := r.value[|rows|];
      ChosenIsGood(JoinRelative(destination, row.remote), policy, disk, Finals(rows));
      RowAdded(rows, row, inputs, policy, disk);
    }
  }

  lemma SamePrefix(rows: seq<Names>, part: seq<string>, inputs: seq<string>)
    requires part <= inputs && RemotesFrom(rows, part)
    ensures RemotesFrom(rows, inputs)
  {
    hide Unique, Finals;
  }

  /** At the root, inputs that need no renaming keep their names. */
  lemma {:induction false} PlainIsKept(inputs: seq<string>, policy: Policy, disk: map<string, Entry>, n: nat)
    requires Plain(inputs, disk) && policy != Unknown && n <= |inputs|
    ensures Named(inputs[..n], "", policy, disk) == Ok(Unrenamed(inputs[..n]))
  {
    hide Named, Finals, Unrenamed, Clean, Unique, Chosen, Plain;
    if n == 0 {
      NothingNamed("", policy, disk);
      assert inputs[..0] == [] && Unrenamed(inputs[..0]) == [];
    } else {
      var i := n - 1;
      var rows := Unrenamed(inputs[..i]);
      PlainIsKept(inputs, policy, disk, i);
      NextUnrenamed(inputs, disk, i);
      NamedStep(inputs, i, "", policy, disk);
      UniqueUnchanged(inputs[i], Finals(rows));
      FreeIsChosen(inputs[i], policy, disk, Finals(rows));
      assert OneMore(rows, inputs[i], "", policy, disk) == Ok(rows + [Names(inputs[i], inputs[i])]);
    }
  }

  /** One turn of the loop, and what its failure means for the job. */
  lemma NamedStep(inputs: seq<string>, i: nat, destination: string, policy: Policy, disk: map<string, Entry>)
    requires i < |inputs| && Named(inputs[..i], destination, policy, disk).Ok?
    ensures var rows := Named(inputs[..i], destination, policy, disk).value;
            var next := OneMore(rows, inputs[i], destination, policy, disk);
            && Named(inputs[..i + 1], destination, policy, disk) == next
            && (next.Err? ==> Named(inputs, destination, policy, disk).Err?)
  {
    hide OneMore;
    assert inputs[..i + 1][..i] == inputs[..i];
    if Named(inputs[..i + 1], destination, policy, disk).Err? { NamedFails(inputs, i + 1, destination, policy, disk); }
  }

  /** A successful job: one row per input, each named as the loop does. */
  lemma {:induction false} NamedRows(inputs: seq<string>, destination: string, policy: Policy,
                                     disk: map<string, Entry>, i: nat)
    requires Named(inputs, destination, policy, disk).Ok? && i < |inputs|
    ensures var rows := Named(inputs, destination, policy, disk).value;
            && |rows| == |inputs| && rows[i].remote == Unique(inputs[i], Finals(rows[..i]))
            && Chosen(JoinRelative(destination, rows[i].remote), policy, disk, Finals(rows[..i])) == Name(rows[i].final)
    decreases |inputs|
  {
    hide Unique, Chosen, Finals, Clean, JoinRelative;
    var n := |inputs| - 1;
    var rows := Named(inputs, destination, policy, disk).value;
    var before := Named(inputs[..n], destination, policy, disk).value;
    if n > 0 { NamedRows(inputs[..n], destination, policy, disk, if i < n then i else 0); }
    assert rows[..n] == before;
    if i < n { assert rows[..i] == before[..i]; }
  }
}
