/** From a verified part file to a completed row: verify, persist the target as moving, rename, sync
    both directories, persist completed; and recoverMovedFile after a stop at any point. A step
    system over the persisted row, the two directory trees and one run's position; every system call
    and every database update is one step. */
module Move {
  import opened SegmentPlan
  import opened Ctr
  import opened States
  import Integrity

  datatype Config = Config(key: FileKey, size: nat)

  /** The size and MAC check. */
  predicate Passes(c: Config, bytes: seq<byte>) {
    |bytes| == c.size && Integrity.Genuine(c.key, bytes)
  }

  datatype Policy = Rename | Overwrite | FailIfExists

  datatype Entry = Regular(bytes: seq<byte>) | Link

  /** The persisted row; full: its bitmap has every segment. */
  datatype Row = Row(state: FileState, target: string, full: bool)

  /** A directory change that a power loss may still take back. */
  datatype Undo =
    | Unrename(target: string, source: seq<byte>, replaced: Option<Entry>, targetSynced: bool)
    | Unremove(source: seq<byte>)

  /** part: the file at the part path; flushed: its bytes are synced. dir: the complete tree.
      landed: the paths in it that carry this file's payload, which nobody else touches. */
  datatype Disk = Disk(part: Option<seq<byte>>, flushed: bool, dir: map<string, Entry>, landed: set<string>,
      undo: seq<Undo>)

  /** Where the run of this file stands. wanted is the final path as loaded with the job. */
  datatype Phase =
    | Idle
    | Opening(wanted: string)
    | Fetching(wanted: string, full: bool, dirty: bool)
    | Checking(wanted: string)
    | Finalizing(wanted: string, policy: Policy)
    | Planned(wanted: string, policy: Policy, target: string)
    | Prepared(wanted: string, policy: Policy, target: string)
    | Renamed(target: string)
    | TargetSynced(target: string)
    | Settled(target: string)
    | Inspecting
    | Inspected(partExists: bool)
    | Accepted(partExists: bool)
    | Unlinked

  /** verified: the check has passed on the part file at some point of the history. */
  datatype State = State(row: Row, disk: Disk, phase: Phase, verified: bool)

  datatype Step =
    | Start | OpenPart | Fetch(bytes: seq<byte>, full: bool) | Checkpoint | BeginVerify
    | Verify(policy: Policy) | Plan(target: string) | Prepare | DoRename(keepsLink: bool) | Conflict
    | SyncTarget | SyncSource | Complete
    | LookForPart | LookAtTarget | RemovePart | SyncRemoval | CompleteRecovered
    | FinalizeError | RecoveryError | Quit               // a run ends with an error
    | MarkForRecovery | Overrule(state: FileState)      // the row is rewritten outside a run
    | Kill | PowerLoss(image: Disk)                     // the process stops
    | Elsewhere(path: string, entry: Option<Entry>)     // others use the complete tree

  // ----- the file system

  ghost predicate Holds(c: Config, d: Disk, path: string) {
    path in d.dir && d.dir[path].Regular? && Passes(c, d.dir[path].bytes)
  }

  function Put(dir: map<string, Entry>, path: string, entry: Option<Entry>): map<string, Entry> {
    if entry.Some? then dir[path := entry.value] else dir - {path}
  }

  function Front(undo: seq<Undo>): seq<Undo>
    requires undo != []
  {
    undo[..|undo| - 1]
  }

  function Newest(undo: seq<Undo>): Undo
    requires undo != []
  {
    undo[|undo| - 1]
  }

  /** The newest change taken back. */
  function Rewound(d: Disk): Disk
    requires d.undo != []
  {
    match Newest(d.undo)
    case Unremove(source) => d.(part := Some(source), undo := Front(d.undo))
    case Unrename(target, source, replaced, _) =>
      Disk(Some(source), d.flushed, Put(d.dir, target, replaced), d.landed - {target}, Front(d.undo))
  }

  /** A rename across directories seen half: both names lead to the file. */
  function BothLinks(d: Disk): Disk
    requires d.undo != []
  {
    d.(part := Some(Newest(d.undo).source), undo := [])
  }

  /** What a power loss may leave. Changes are lost newest first; a synced target is kept. Bytes that
      were not synced may be anything, wherever the file is by then. */
  ghost predicate CrashImage(d: Disk, image: Disk)
    decreases |d.undo|
  {
    || (d.flushed && image == d.(undo := []))
    || (!d.flushed && image == Disk(image.part, true, image.dir, {}, []))
    || (d.undo != [] && Newest(d.undo).Unrename? && image == BothLinks(d))
    || (d.undo != [] && !(Newest(d.undo).Unrename? && Newest(d.undo).targetSynced) && CrashImage(Rewound(d), image))
  }

  /** After a sync of the directory of the target. */
  function MarkSynced(undo: seq<Undo>): (r: seq<Undo>)
    ensures |r| == |undo|
  {
    seq(|undo|, i requires 0 <= i < |undo| => if undo[i].Unrename? then undo[i].(targetSynced := true) else undo[i])
  }

  /** After a sync of the directory of the part file: removals are durable, and so are renames whose
      target is. */
  function DropSynced(undo: seq<Undo>): (r: seq<Undo>) {
    if undo == [] then []
    else
      var rest := DropSynced(Front(undo));
      if Newest(undo).Unrename? && !Newest(undo).targetSynced then rest + [Newest(undo)] else rest
  }

  function Resized(bytes: seq<byte>, size: nat): (r: seq<byte>)
    ensures |r| == size
    ensures |bytes| == size ==> r == bytes
  {
    if |bytes| >= size then bytes[..size] else bytes + seq(size - |bytes|, _ => 0)
  }

  /** OpenPartialFile. */
  function Opened(c: Config, d: Disk): Disk {
    match d.part
    case None => d.(part := Some(Resized([], c.size)), flushed := false)
    case Some(bytes) => d.(part := Some(Resized(bytes, c.size)), flushed := d.flushed && |bytes| == c.size)
  }

  /** RenameFrom. Renaming onto another link of the same file leaves both names. */
  function AfterRename(d: Disk, target: string, keepsLink: bool): Disk
    requires d.part.Some?
  {
    if keepsLink then d
    else
      var replaced := if target in d.dir then Some(d.dir[target]) else None;
      Disk(None, d.flushed, d.dir[target := Regular(d.part.value)], d.landed + {target},
           d.undo + [Unrename(target, d.part.value, replaced, false)])
  }

  // ----- steps

  /** What PlanConflict may answer. */
  predicate MayPlan(dir: map<string, Entry>, wanted: string, policy: Policy, target: string) {
    match policy
    case Overwrite => target == wanted && (target in dir ==> dir[target].Regular?)
    case Rename => target !in dir
    case FailIfExists => target == wanted && target !in dir
  }

  ghost predicate Enabled(c: Config, s: State, x: Step) {
    var p, d := s.phase, s.disk;
    match x
    case Start => p.Idle? && s.row.state != FileCompleted && s.row.state != FileCancelled
    case OpenPart => p.Opening?
    case Fetch(bytes, full) => p.Fetching? && !p.full && |bytes| == c.size
    case Checkpoint => p.Fetching? && p.dirty
    case BeginVerify => p.Fetching? && p.full && !p.dirty
    case Verify(policy) => p.Checking? && d.part.Some?
    case Plan(target) => p.Finalizing? && MayPlan(d.dir, p.wanted, p.policy, target)
    case Prepare => p.Planned?
    case DoRename(keepsLink) =>
      && p.Prepared? && d.part.Some?
      && (p.target in d.dir ==> p.policy == Overwrite && d.dir[p.target].Regular?)
      && (keepsLink ==> p.target in d.landed && p.target in d.dir && d.dir[p.target] == Regular(d.part.value))
    case Conflict => p.Prepared? && p.target in d.dir && p.policy == Rename
    case SyncTarget => p.Renamed?
    case SyncSource => p.TargetSynced?
    case Complete => p.Settled?
    case LookForPart => p.Inspecting?
    case LookAtTarget => p.Inspected?
    case RemovePart => p.Accepted? && p.partExists && d.part.Some?
    case SyncRemoval => p.Unlinked?
    case CompleteRecovered => p.Accepted? && !p.partExists
    case FinalizeError => p.Finalizing? || p.Planned? || p.Prepared?
    case RecoveryError => p.Inspecting? || p.Inspected? || p.Accepted? || p.Unlinked?
    case Quit => !p.Idle?
    case MarkForRecovery => p.Idle?
    case Overrule(state) =>
      p.Idle? && s.row.state != FileCompleted && state in {FilePaused, FileWaiting, FileFailed, FileCancelled}
    case Kill => true
    case PowerLoss(image) => CrashImage(d, image)
    case Elsewhere(path, entry) => path !in d.landed
  }

  /** runJob reaches a row that is not completed. */
  function DoStart(s: State): State {
    if s.row.state == FileMoving then s.(phase := Inspecting)
    else if FileEdge(s.row.state, FileDownloading) then Resume(s)
    else Failed(s)
  }

  function Resume(s: State): State {
    s.(row := s.row.(state := FileDownloading), phase := Opening(s.row.target))
  }

  function Failed(s: State): State {
    s.(row := s.row.(state := FileFailed), phase := Idle)
  }

  /** The decision of recoverMovedFile once the target has been looked at. */
  function DoLookAtTarget(c: Config, s: State, partExists: bool): State {
    var dir, target := s.disk.dir, s.row.target;
    if target !in dir then (if partExists then Resume(s) else Failed(s))
    else if dir[target].Link? then Failed(s)
    else if Passes(c, dir[target].bytes) then
      s.(phase := Accepted(partExists), disk := s.disk.(landed := s.disk.landed + {target}))
    else if partExists then Resume(s)
    else Failed(s)
  }

  function Do(c: Config, s: State, x: Step): State
    requires Enabled(c, s, x)
  {
    var p, d := s.phase, s.disk;
    match x
    case Start => DoStart(s)
    case OpenPart =>
      var kept := d.part.Some? && s.row.full;
      s.(disk := Opened(c, d), phase := Fetching(p.wanted, kept || c.size == 0, c.size == 0))
    case Fetch(bytes, full) => s.(disk := d.(part := Some(bytes), flushed := false),
        phase := p.(full := full, dirty := true))
    case Checkpoint =>
      s.(row := s.row.(state := FileDownloading, full := p.full), disk := d.(flushed := true),
          phase := p.(dirty := false))
    case BeginVerify => s.(row := s.row.(state := FileVerifying), phase := Checking(p.wanted))
    case Verify(policy) =>
      if Passes(c, d.part.value) then s.(phase := Finalizing(p.wanted, policy), verified := true) else Failed(s)
    case Plan(target) => s.(phase := Planned(p.wanted, p.policy, target))
    case Prepare => s.(row := s.row.(state := FileMoving, target := p.target),
        phase := Prepared(p.wanted, p.policy, p.target))
    case DoRename(keepsLink) => s.(disk := AfterRename(d, p.target, keepsLink), phase := Renamed(p.target))
    case Conflict => s.(phase := Finalizing(p.wanted, p.policy))
    case SyncTarget => s.(disk := d.(undo := MarkSynced(d.undo)), phase := TargetSynced(p.target))
    case SyncSource => s.(disk := d.(undo := DropSynced(d.undo)), phase := Settled(p.target))
    case Complete => s.(row := s.row.(state := FileCompleted, target := p.target), phase := Idle)
    case LookForPart => s.(phase := Inspected(d.part.Some?))
    case LookAtTarget => DoLookAtTarget(c, s, p.partExists)
    case RemovePart => s.(disk := d.(part := None, undo := d.undo + [Unremove(d.part.value)]), phase := Unlinked)
    case SyncRemoval => s.(disk := d.(undo := DropSynced(d.undo)), phase := Accepted(false))
    case CompleteRecovered => s.(row := s.row.(state := FileCompleted), phase := Idle)
    case FinalizeError => Failed(s)
    case RecoveryError => Failed(s)
    case Quit => s.(phase := Idle)
    case MarkForRecovery =>
      if s.row.state in {FileDownloading, FileVerifying} then s.(row := s.row.(state := FilePaused)) else s
    case Overrule(state) => s.(row := s.row.(state := state))
    case Kill => s.(phase := Idle)
    case PowerLoss(image) => s.(disk := image, phase := Idle)
    case Elsewhere(path, entry) => s.(disk := d.(dir := Put(d.dir, path, entry)))
  }

  /** A new row: nothing fetched, no part file, any complete tree. */
  ghost predicate Init(s: State) {
    && s.row.state == FilePending && !s.row.full && s.phase == Idle && !s.verified
    && s.disk == Disk(None, true, s.disk.dir, {}, [])
  }

  ghost predicate Runs(c: Config, s: State, steps: seq<Step>)
    decreases |steps|
  {
    steps == [] || (Enabled(c, s, steps[0]) && Runs(c, Do(c, s, steps[0]), steps[1..]))
  }

  ghost function Last(c: Config, s: State, steps: seq<Step>): State
    requires Runs(c, s, steps)
    decreases |steps|
  {
    if steps == [] then s else Last(c, Do(c, s, steps[0]), steps[1..])
  }

  /** Nobody rewrites a moving row whose part file is already gone: stops are crashes, not pauses, and
      move recovery meets no error of the file system or the database after the rename took effect. */
  ghost predicate Orderly(c: Config, s: State, steps: seq<Step>)
    requires Runs(c, s, steps)
    decreases |steps|
  {
    steps == [] || (StepOrderly(s, steps[0]) && Orderly(c, Do(c, s, steps[0]), steps[1..]))
  }

  ghost predicate StepOrderly(s: State, x: Step) {
    (x.Overrule? || x.RecoveryError?) && s.verified ==> s.disk.part.Some?
  }
}
