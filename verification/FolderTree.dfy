/** The two walks along the parent links of a public folder. The links come from the network: they may
    be missing or form cycles. */
module FolderTree {
  import opened SegmentPlan
  import opened Text

  /** Handles are only ever compared. NoHandle is the empty string, which no node bears. */
  datatype Handle = NoHandle | Handle(text: string)

  datatype Node = Node(handle: Handle, parent: Handle, name: string)

  type ByHandle = map<Handle, Node>

  /** byHandle as the resolver fills it: every node is stored under its own handle. */
  ghost predicate WellKeyed(m: ByHandle) {
    forall h :: h in m ==> m[h].handle == h
  }

  /** The node is the one its handle finds, if its handle finds any. */
  ghost predicate Listed(m: ByHandle, node: Node) {
    node.handle in m ==> m[node.handle] == node
  }

  // ----- the parent chain

  function Up(m: ByHandle, n: Node): Option<Node> {
    if n.parent == NoHandle || n.parent !in m then None else Some(m[n.parent])
  }

  /** The k-th node of the parent chain that starts at n. */
  function Ancestor(m: ByHandle, n: Node, k: nat): Option<Node> {
    if k == 0 then Some(n)
    else
      var below := Ancestor(m, n, k - 1);
      if below.None? then None else Up(m, below.value)
  }

  ghost predicate HasHandle(m: ByHandle, n: Node, k: nat, handle: Handle) {
    Ancestor(m, n, k).Some? && Ancestor(m, n, k).value.handle == handle
  }

  ghost predicate OnChain(m: ByHandle, n: Node, handle: Handle) {
    exists k: nat :: HasHandle(m, n, k, handle)
  }

  /** The walk may stop at position k: at the selected node, or at a node without a parent. */
  ghost predicate Ends(m: ByHandle, n: Node, selected: Option<Node>, k: nat) {
    && Ancestor(m, n, k).Some?
    && (Ancestor(m, n, k).value.parent == NoHandle || (selected.Some? && HasHandle(m, n, k, selected.value.handle)))
  }

  /** The first k nodes of the chain exist and no handle repeats among them. */
  ghost predicate Distinct(m: ByHandle, n: Node, k: nat) {
    forall i: nat, j: nat :: i < j < k ==> Differ(m, n, i, j)
  }

  ghost predicate Differ(m: ByHandle, n: Node, i: nat, j: nat) {
    && Ancestor(m, n, i).Some? && Ancestor(m, n, j).Some?
    && Ancestor(m, n, i).value.handle != Ancestor(m, n, j).value.handle
  }

  /** The chain meets the handle first at position k, and repeats no handle on the way. */
  ghost predicate Reaches(m: ByHandle, n: Node, handle: Handle, k: nat) {
    && HasHandle(m, n, k, handle) && (forall j: nat :: j < k ==> !HasHandle(m, n, j, handle))
    && Distinct(m, n, k)
  }

  /** The chain can first stop at position k, and repeats no handle up to there. */
  ghost predicate Stops(m: ByHandle, n: Node, selected: Option<Node>, k: nat) {
    Ends(m, n, selected, k) && NoEndBelow(m, n, selected, k) && Distinct(m, n, k + 1)
  }

  /** The names from the k-th ancestor down to n. */
  function NamesDown(m: ByHandle, n: Node, k: nat): seq<string> {
    [NameAt(m, n, k)] + if k == 0 then [] else NamesDown(m, n, k - 1)
  }

  lemma AncestorStep(m: ByHandle, n: Node, k: nat)
    requires Ancestor(m, n, k).Some?
    ensures Ancestor(m, n, k + 1) == Up(m, Ancestor(m, n, k).value)
  {
  }

  lemma {:induction false} ChainEnded(m: ByHandle, n: Node, j: nat, k: nat)
    requires j <= k && Ancestor(m, n, j).None?
    ensures Ancestor(m, n, k).None?
    decreases k
  {
    if j < k { ChainEnded(m, n, j, k - 1); }
  }

  lemma {:induction false} ChainShifts(m: ByHandle, n: Node, j: nat, k: nat, d: nat)
    requires Ancestor(m, n, j) == Ancestor(m, n, k)
    ensures Ancestor(m, n, j + d) == Ancestor(m, n, k + d)
  {
    if d > 0 { ChainShifts(m, n, j, k, d - 1); }
  }

  /** Once a chain repeats a node, every later node already occurred before the repetition. */
  lemma {:induction false} RepetitionCloses(m: ByHandle, n: Node, j: nat, k: nat, i: nat) returns (early: nat)
    requires j < k && Ancestor(m, n, j) == Ancestor(m, n, k)
    ensures early < k && Ancestor(m, n, early) == Ancestor(m, n, i)
    decreases i
  {
    if i < k {
      early := i;
    } else {
      ChainShifts(m, n, j, k, i - k);
      early := RepetitionCloses(m, n, j, k, j + (i - k));
    }
  }

  /** Positions with equal handles hold equal nodes. */
  lemma SameHandleSameNode(m: ByHandle, n: Node, j: nat, k: nat)
    requires WellKeyed(m) && Listed(m, n) && j < k
    requires Ancestor(m, n, j).Some? && Ancestor(m, n, k).Some?
    requires Ancestor(m, n, j).value.handle == Ancestor(m, n, k).value.handle
    ensures Ancestor(m, n, j) == Ancestor(m, n, k)
  {
    if j > 0 { assert Ancestor(m, n, j - 1).Some?; }
    assert Ancestor(m, n, k - 1).Some?;
  }

  ghost predicate MetBelow(m: ByHandle, n: Node, h: Handle, k: nat) {
    exists j: nat :: j < k && HasHandle(m, n, j, h)
  }

  /** The handles of the first k nodes of the chain. */
  ghost predicate SeenExactly(m: ByHandle, n: Node, seen: set<Handle>, k: nat) {
    && (forall j: nat :: j < k ==> Ancestor(m, n, j).Some? && Ancestor(m, n, j).value.handle in seen)
    && (forall h :: h in seen ==> MetBelow(m, n, h, k))
  }

  lemma SeenFirst(m: ByHandle, n: Node)
    ensures SeenExactly(m, n, {n.handle}, 1)
  {
    assert HasHandle(m, n, 0, n.handle);
  }

  lemma MetLater(m: ByHandle, n: Node, h: Handle, k: nat)
    requires MetBelow(m, n, h, k) || HasHandle(m, n, k, h)
    ensures MetBelow(m, n, h, k + 1)
  {
    hide HasHandle;
    if j: nat :| j < k && HasHandle(m, n, j, h) { assert j < k + 1; }
  }

  lemma SeenGrows(m: ByHandle, n: Node, seen: set<Handle>, k: nat)
    requires SeenExactly(m, n, seen, k) && Ancestor(m, n, k).Some?
    ensures SeenExactly(m, n, seen + {Ancestor(m, n, k).value.handle}, k + 1)
  {
    hide Ancestor, MetBelow;
    var next := seen + {Ancestor(m, n, k).value.handle};
    forall h | h in next ensures MetBelow(m, n, h, k + 1) { MetLater(m, n, h, k); }
  }

  lemma DistinctGrows(m: ByHandle, n: Node, seen: set<Handle>, k: nat)
    requires SeenExactly(m, n, seen, k) && Distinct(m, n, k)
    requires Ancestor(m, n, k).Some? && Ancestor(m, n, k).value.handle !in seen
    ensures Distinct(m, n, k + 1)
  {
    hide Ancestor;
    forall i: nat, j: nat | i < j < k + 1 ensures Differ(m, n, i, j) {
      if j < k { assert Differ(m, n, i, j); }
    }
  }

  /** A seen handle at position k: no longer stretch of the chain is free of repetitions. */
  lemma Repeats(m: ByHandle, n: Node, seen: set<Handle>, k: nat, i: nat)
    requires SeenExactly(m, n, seen, k) && Ancestor(m, n, k).Some? && Ancestor(m, n, k).value.handle in seen && i > k
    ensures !Distinct(m, n, i)
  {
    hide Ancestor;
    var j: nat :| j < k && HasHandle(m, n, j, Ancestor(m, n, k).value.handle);
    assert !Differ(m, n, j, k);
  }

  lemma DistinctAtStart(m: ByHandle, n: Node)
    ensures Distinct(m, n, 0) && Distinct(m, n, 1)
  {
  }

  // ----- the walks

  /** nodeIsWithinSelection, on any parent graph, cyclic or not and with repeated handles: true exactly
      when the chain reaches the selected handle before it repeats one. */
  method NodeIsWithinSelection(node: Option<Node>, selected: Option<Node>, m: ByHandle) returns (within: bool)
    requires WellKeyed(m)
    ensures within <==>
              node.Some? && selected.Some? && exists k: nat :: Reaches(m, node.value, selected.value.handle, k)
  {
    if node.None? || selected.None? { return false; }
    var n, handle := node.value, selected.value.handle;
    DistinctAtStart(m, n);
    hide Distinct, Ancestor;
    var seen: set<Handle> := {};
    var current := node;
    ghost var k: nat := 0;
    ghost var universe := m.Keys + {n.handle};
    assert Ancestor(m, n, 0) == Some(n) by { AncestorZero(m, n); }
    while current.Some?
      invariant current == Ancestor(m, n, k) && SeenExactly(m, n, seen, k) && Distinct(m, n, k)
      invariant seen <= universe && (current.Some? ==> current.value.handle in universe)
      invariant Unmet(m, n, handle, k)
      decreases universe - seen, current.Some?
    {
      if current.value.handle == handle {
        assert Reaches(m, n, handle, k);
        return true;
      }
      MissedHere(m, n, handle, k);
      if current.value.handle in seen {
        forall i: nat ensures !Reaches(m, n, handle, i) {
          if i > k { Repeats(m, n, seen, k, i); }
        }
        return false;
      }
      DistinctGrows(m, n, seen, k);
      SeenGrows(m, n, seen, k);
      AncestorStep(m, n, k);
      seen := seen + {current.value.handle};
      if current.value.parent == NoHandle {
        NothingAfter(m, n, k + 1, handle);
        return false;
      }
      current := if current.value.parent in m then Some(m[current.value.parent]) else None;
      k := k + 1;
    }
    NothingAfter(m, n, k, handle);
    return false;
  }

  lemma AncestorZero(m: ByHandle, n: Node)
    ensures Ancestor(m, n, 0) == Some(n)
  {
  }

  /** None of the first k nodes bears the handle. */
  ghost predicate Unmet(m: ByHandle, n: Node, handle: Handle, k: nat) {
    forall j: nat :: j < k ==> !HasHandle(m, n, j, handle)
  }

  lemma MissedHere(m: ByHandle, n: Node, handle: Handle, k: nat)
    requires Unmet(m, n, handle, k) && Ancestor(m, n, k).Some? && Ancestor(m, n, k).value.handle != handle
    ensures Unmet(m, n, handle, k + 1)
  {
  }

  lemma NothingAfter(m: ByHandle, n: Node, k: nat, handle: Handle)
    requires Ancestor(m, n, k).None? && Unmet(m, n, handle, k)
    ensures !OnChain(m, n, handle) && forall i: nat :: !Reaches(m, n, handle, i)
  {
    forall i: nat ensures !HasHandle(m, n, i, handle) {
      if i >= k { ChainEnded(m, n, k, i); }
    }
  }

  /** The in-place reversal at the end of the path walk. */
  method Reverse(a: array<string>)
    modifies a
    ensures forall i :: 0 <= i < a.Length ==> a[i] == old(a[a.Length - 1 - i])
  {
    var left, right := 0, a.Length - 1;
    while left < right
      invariant 0 <= left && left + right == a.Length - 1 && right >= left - 1
      invariant forall i :: 0 <= i < left ==> a[i] == old(a[a.Length - 1 - i]) && a[a.Length - 1 - i] == old(a[i])
      invariant forall i :: left <= i <= right ==> a[i] == old(a[i])
    {
      a[left], a[right] := a[right], a[left];
      left, right := left + 1, right - 1;
    }
  }

  function NameAt(m: ByHandle, n: Node, k: nat): string {
    var here := Ancestor(m, n, k);
    if here.None? then "" else here.value.name
  }

  /** The names in the order the walk meets them. */
  function NamesUp(m: ByHandle, n: Node, k: nat): (r: seq<string>)
    ensures |r| == k + 1
  {
    (if k == 0 then [] else NamesUp(m, n, k - 1)) + [NameAt(m, n, k)]
  }

  lemma {:induction false} NamesReversed(m: ByHandle, n: Node, k: nat, i: nat)
    requires i <= k
    ensures |NamesDown(m, n, k)| == k + 1 && NamesDown(m, n, k)[i] == NamesUp(m, n, k)[k - i]
  {
    hide NameAt, Ancestor;
    if k > 0 {
      NamesReversed(m, n, k - 1, if i > 0 then i - 1 else 0);
      var down, up := NamesDown(m, n, k - 1), NamesUp(m, n, k - 1);
      assert NamesDown(m, n, k) == [NameAt(m, n, k)] + down && NamesUp(m, n, k) == up + [NameAt(m, n, k)];
      if i > 0 { assert NamesDown(m, n, k)[i] == down[i - 1] == up[k - i]; }
    }
  }

  lemma ReversedIsDown(m: ByHandle, n: Node, k: nat, down: seq<string>)
    requires |down| == k + 1 && forall i :: 0 <= i <= k ==> down[i] == NamesUp(m, n, k)[k - i]
    ensures down == NamesDown(m, n, k)
  {
    NamesReversed(m, n, k, 0);
    forall i | 0 <= i <= k ensures down[i] == NamesDown(m, n, k)[i] { NamesReversed(m, n, k, i); }
  }

  /** folderNodePathFrom, on any parent graph: succeeds exactly when the chain can stop somewhere before
      it repeats a handle, and then returns the names from the first such node down to the given one. */
  method FolderNodePathFrom(node: Node, m: ByHandle, selected: Option<Node>)
      returns (path: Result<string>, ghost depth: nat)
    requires WellKeyed(m)
    ensures path.Ok? <==> exists k: nat :: Stops(m, node, selected, k)
    ensures path.Ok? ==> Stops(m, node, selected, depth) && path.value == JoinSlash(NamesDown(m, node, depth))
  {
    hide Stops, NamesUp, NamesDown, JoinSlash;
    var found, parts, k := WalkUp(node, m, selected);
    depth := k;
    if !found { return Err, depth; }
    var a := new string[|parts|](i requires 0 <= i < |parts| => parts[i]);
    assert a[..] == parts;
    Reverse(a);
    ReversedIsDown(m, node, k, a[..]);
    return Ok(JoinSlash(a[..])), depth;
  }

  /** The loop of folderNodePathFrom: names from the node upwards. */
  method WalkUp(node: Node, m: ByHandle, selected: Option<Node>)
      returns (found: bool, parts: seq<string>, ghost k: nat)
    requires WellKeyed(m)
    ensures !found ==> forall i: nat :: !Stops(m, node, selected, i)
    ensures found ==> Stops(m, node, selected, k) && parts == NamesUp(m, node, k)
  {
    assert NamesUp(m, node, 0) == [node.name] && NoEndBelow(m, node, selected, 0);
    AncestorZero(m, node);
    SeenFirst(m, node);
    DistinctAtStart(m, node);
    hide Ancestor, SeenExactly, Ends, NoEndBelow, NameAt, NamesUp, WellKeyed, Distinct;
    parts, k := [node.name], 0;
    var seen := {node.handle};
    if selected.Some? && node.handle == selected.value.handle {
      EndsExactly(m, node, selected, 0);
      return true, parts, k;
    }
    var parent := node.parent;
    ghost var universe := m.Keys + {node.handle};
    while parent != NoHandle
      invariant Ancestor(m, node, k).Some? && parent == Ancestor(m, node, k).value.parent
      invariant SeenExactly(m, node, seen, k + 1) && Distinct(m, node, k + 1) && seen <= universe
      invariant parts == NamesUp(m, node, k)
      invariant NoEndBelow(m, node, selected, k)
      invariant selected.Some? ==> Ancestor(m, node, k).value.handle != selected.value.handle
      decreases universe - seen
    {
      NoEndHere(m, node, selected, k);
      AncestorStep(m, node, k);
      if parent in seen || parent !in m {
        NeverStops(m, node, selected, seen, k);
        return false, parts, k;
      }
      var parentNode := m[parent];
      assert Ancestor(m, node, k + 1) == Some(parentNode);
      KeyIsHandle(m, parent);
      DistinctGrows(m, node, seen, k + 1);
      SeenGrows(m, node, seen, k + 1);
      seen := seen + {parent};
      NextName(m, node, k);
      parts := parts + [parentNode.name];
      k := k + 1;
      if selected.Some? && parentNode.handle == selected.value.handle { break; }
      parent := parentNode.parent;
    }
    EndsExactly(m, node, selected, k);
    return true, parts, k;
  }

  lemma KeyIsHandle(m: ByHandle, handle: Handle)
    requires WellKeyed(m) && handle in m
    ensures m[handle].handle == handle
  {
  }

  lemma NextName(m: ByHandle, n: Node, k: nat)
    requires Ancestor(m, n, k + 1).Some?
    ensures NamesUp(m, n, k + 1) == NamesUp(m, n, k) + [Ancestor(m, n, k + 1).value.name]
  {
  }

  lemma EndsExactly(m: ByHandle, n: Node, selected: Option<Node>, k: nat)
    requires Ancestor(m, n, k).Some?
    ensures Ends(m, n, selected, k) <==>
              var here := Ancestor(m, n, k).value;
              here.parent == NoHandle || (selected.Some? && here.handle == selected.value.handle)
  {
  }

  /** The walk could not have stopped before position k. */
  ghost predicate NoEndBelow(m: ByHandle, n: Node, selected: Option<Node>, k: nat) {
    forall j: nat :: j < k ==> !Ends(m, n, selected, j)
  }

  lemma NoEndHere(m: ByHandle, n: Node, selected: Option<Node>, k: nat)
    requires NoEndBelow(m, n, selected, k) && Ancestor(m, n, k).Some? && Ancestor(m, n, k).value.parent != NoHandle
    requires selected.Some? ==> Ancestor(m, n, k).value.handle != selected.value.handle
    ensures NoEndBelow(m, n, selected, k + 1)
  {
  }

  /** The walk has come to a seen or missing parent: there is no stop anywhere. */
  lemma NeverStops(m: ByHandle, n: Node, selected: Option<Node>, seen: set<Handle>, k: nat)
    requires WellKeyed(m) && SeenExactly(m, n, seen, k + 1) && NoEndBelow(m, n, selected, k + 1)
    requires Ancestor(m, n, k).Some? && Ancestor(m, n, k).value.parent != NoHandle
    requires Ancestor(m, n, k).value.parent in seen || Ancestor(m, n, k).value.parent !in m
    ensures forall i: nat :: !Stops(m, n, selected, i)
  {
    hide Ancestor, Distinct, SeenExactly, Stops, NoEndBelow, WellKeyed;
    AncestorStep(m, n, k);
    var parent := Ancestor(m, n, k).value.parent;
    if parent in m { KeyIsHandle(m, parent); }
    forall i: nat ensures !Stops(m, n, selected, i) {
      if i > k && Ancestor(m, n, k + 1).Some? { Repeats(m, n, seen, k + 1, i + 1); }
      if i > k && Ancestor(m, n, k + 1).None? { ChainEnded(m, n, k + 1, i); }
      StopNeeds(m, n, selected, i, k + 1);
    }
  }

  lemma StopNeeds(m: ByHandle, n: Node, selected: Option<Node>, i: nat, k: nat)
    requires NoEndBelow(m, n, selected, k)
    ensures Stops(m, n, selected, i) ==> i >= k && Ancestor(m, n, i).Some? && Distinct(m, n, i + 1)
  {
    hide Ancestor, Distinct;
  }

  // ----- how the walks agree

  /** Whenever the first walk accepts a node, the second stops at the selected node. */
  lemma ReachesStops(m: ByHandle, n: Node, selected: Node, k: nat)
    requires Reaches(m, n, selected.handle, k)
    ensures Stops(m, n, Some(selected), k)
  {
    forall j: nat | j < k ensures !Ends(m, n, Some(selected), j) {
      if Ancestor(m, n, j).Some? && Ancestor(m, n, j).value.parent == NoHandle { ChainEnded(m, n, j + 1, k); }
    }
    forall i: nat, j: nat | i < j < k + 1 ensures Differ(m, n, i, j) {
      if j == k { MissedBefore(m, n, selected.handle, i, k); }
    }
  }

  lemma MissedBefore(m: ByHandle, n: Node, handle: Handle, i: nat, k: nat)
    requires i < k && HasHandle(m, n, k, handle) && !HasHandle(m, n, i, handle)
    ensures Differ(m, n, i, k)
  {
    if Ancestor(m, n, i).None? { ChainEnded(m, n, i, k); }
  }

  lemma OneStop(m: ByHandle, n: Node, selected: Option<Node>, j: nat, k: nat)
    requires Stops(m, n, selected, j) && Stops(m, n, selected, k)
    ensures j == k
  {
  }

  /** The resolver's use of both walks, on any parent graph: a node that the first walk accepts always
      gets a path, and the path is the names from the selected node down to it. */
  method SelectedPath(node: Node, selected: Node, m: ByHandle) returns (path: Option<string>, ghost depth: nat)
    requires WellKeyed(m)
    ensures path.Some? <==> exists k: nat :: Reaches(m, node, selected.handle, k)
    ensures path.Some? ==>
              Reaches(m, node, selected.handle, depth) && path.value == JoinSlash(NamesDown(m, node, depth))
  {
    depth := 0;
    hide Reaches, Stops;
    var within := NodeIsWithinSelection(Some(node), Some(selected), m);
    if !within { return None, depth; }
    ghost var k: nat :| Reaches(m, node, selected.handle, k);
    ReachesStops(m, node, selected, k);
    var found;
    found, depth := FolderNodePathFrom(node, m, Some(selected));
    OneStop(m, node, Some(selected), k, depth);
    return Some(found.value), depth;
  }

  // ----- listings without repeated handles

  /** Some position below k has the handle first. */
  lemma {:induction false} FirstMeeting(m: ByHandle, n: Node, handle: Handle, k: nat) returns (first: nat)
    requires HasHandle(m, n, k, handle)
    ensures first <= k && HasHandle(m, n, first, handle) && Unmet(m, n, handle, first)
  {
    if j: nat :| j < k && HasHandle(m, n, j, handle) {
      first := FirstMeeting(m, n, handle, j);
    } else {
      first := k;
    }
  }

  /** If the node is the one its handle finds, the first walk accepts exactly the nodes whose parent
      chain contains the selected handle. */
  lemma ListedReachesIff(m: ByHandle, n: Node, handle: Handle)
    requires WellKeyed(m) && Listed(m, n)
    ensures (exists k: nat :: Reaches(m, n, handle, k)) <==> OnChain(m, n, handle)
  {
    if k: nat :| HasHandle(m, n, k, handle) {
      var first := FirstMeeting(m, n, handle, k);
      forall i: nat, j: nat | i < j < first ensures Differ(m, n, i, j) {
        MeetsOnce(m, n, handle, first, i, j);
      }
      assert Reaches(m, n, handle, first);
    }
  }

  lemma MeetsOnce(m: ByHandle, n: Node, handle: Handle, first: nat, i: nat, j: nat)
    requires WellKeyed(m) && Listed(m, n) && HasHandle(m, n, first, handle) && Unmet(m, n, handle, first)
    requires i < j < first
    ensures Differ(m, n, i, j)
  {
    if Ancestor(m, n, j).None? { ChainEnded(m, n, j, first); }
    if Ancestor(m, n, i).None? { ChainEnded(m, n, i, first); }
    if Ancestor(m, n, i).value.handle == Ancestor(m, n, j).value.handle {
      SameHandleSameNode(m, n, i, j);
      var early := RepetitionCloses(m, n, i, j, first);
      assert HasHandle(m, n, early, handle);
    }
  }

  lemma {:induction false} FirstEnd(m: ByHandle, n: Node, selected: Option<Node>, k: nat) returns (first: nat)
    requires Ends(m, n, selected, k)
    ensures Ends(m, n, selected, first) && NoEndBelow(m, n, selected, first)
  {
    if j: nat :| j < k && Ends(m, n, selected, j) {
      first := FirstEnd(m, n, selected, j);
    } else {
      first := k;
    }
  }

  /** And the path walk succeeds exactly when the chain ends anywhere. */
  lemma ListedStopsIff(m: ByHandle, n: Node, selected: Option<Node>)
    requires WellKeyed(m) && Listed(m, n)
    ensures (exists k: nat :: Stops(m, n, selected, k)) <==> exists k: nat :: Ends(m, n, selected, k)
  {
    hide Ancestor;
    if k: nat :| Ends(m, n, selected, k) {
      var first := FirstEnd(m, n, selected, k);
      forall i: nat, j: nat | i < j < first + 1 ensures Differ(m, n, i, j) {
        EndsOnce(m, n, selected, first, i, j);
      }
      assert Stops(m, n, selected, first);
    }
  }

  lemma EndsOnce(m: ByHandle, n: Node, selected: Option<Node>, first: nat, i: nat, j: nat)
    requires WellKeyed(m) && Listed(m, n) && Ends(m, n, selected, first) && NoEndBelow(m, n, selected, first)
    requires i < j <= first
    ensures Differ(m, n, i, j)
  {
    hide Ancestor;
    if Ancestor(m, n, j).None? { ChainEnded(m, n, j, first); }
    if Ancestor(m, n, i).None? { ChainEnded(m, n, i, first); }
    if Ancestor(m, n, i).value.handle == Ancestor(m, n, j).value.handle {
      SameHandleSameNode(m, n, i, j);
      var early := RepetitionCloses(m, n, i, j, first);
      SameEnds(m, n, selected, early, first);
    }
  }

  lemma SameEnds(m: ByHandle, n: Node, selected: Option<Node>, i: nat, k: nat)
    requires Ancestor(m, n, i) == Ancestor(m, n, k) && Ends(m, n, selected, k)
    ensures Ends(m, n, selected, i)
  {
  }

  // ----- listings with a repeated handle

  /** The later of two nodes with one handle replaces the earlier in the map: below the earlier one both
      walks see a repetition and refuse it, although the selected node is on its chain. */
  method DuplicateHandleIsRefused(a: Handle, b: Handle, s: Handle) returns (within: bool, path: Result<string>)
    requires a != b && b != s && a != s && a != NoHandle && b != NoHandle && s != NoHandle
    ensures !within && path.Err?
    ensures var node, twin := Node(a, b, "x"), Node(a, s, "y");
            var m := map[a := twin, b := Node(b, a, "z"), s := Node(s, NoHandle, "top")];
            WellKeyed(m) && OnChain(m, node, s)
  {
    var node, twin, top := Node(a, b, "x"), Node(a, s, "y"), Node(s, NoHandle, "top");
    var m := map[a := twin, b := Node(b, a, "z"), s := top];
    RepeatedInGraph(node, m, top);
    within := NodeIsWithinSelection(Some(node), Some(top), m);
    ghost var depth;
    path, depth := FolderNodePathFrom(node, m, Some(top));
  }

  lemma RepeatedInGraph(node: Node, m: ByHandle, top: Node)
    requires node.parent != NoHandle && node.parent in m && Listed(m, top) && top.handle in m && WellKeyed(m)
    requires var up := m[node.parent];
             && up.parent == node.handle && node.handle in m && node.handle != NoHandle && up.handle != top.handle
             && m[node.handle].parent == top.handle && node.handle != top.handle && top.handle != NoHandle
    ensures OnChain(m, node, top.handle)
    ensures forall k: nat :: !Reaches(m, node, top.handle, k) && !Stops(m, node, Some(top), k)
  {
    assert Ancestor(m, node, 1) == Some(m[node.parent]);
    assert Ancestor(m, node, 2) == Some(m[node.handle]);
    assert Ancestor(m, node, 3) == Some(top);
    assert HasHandle(m, node, 3, top.handle) && !Differ(m, node, 0, 2);
    forall k: nat ensures !Reaches(m, node, top.handle, k) && !Stops(m, node, Some(top), k) {
      if k >= 2 { assert !Distinct(m, node, k + 1); }
    }
  }
}
