/** What the client engine does to its records, its cursor and the local files when it pulls
    (internal/client/sync.go), as functions. `Client` carries these out on mutable state. */
module ClientEngine {
  import opened Model
  import opened Paths
  import opened ConflictNames
  import opened ClientRecords
  import opened LocalFiles
  import opened FileChunks
  import opened DirectoryCleanup

  type Records = map<string, LocalFileState>

  /** What one client holds: its records, its cursor, and the files below its root. */
  datatype Copy = Copy(records: Records, cursor: nat, tree: Tree)

  /** What the world contributes while one event is applied: the clock, its text in a conflict name, and
      what downloading the chunks came to. */
  datatype Env = Env(now: int, stamp: Stamp, fetched: Result<Bytes>)

  /** `hasLocalDivergence`: the local file is not what the record says. */
  predicate Diverged(t: Tree, rel: string, known: LocalFileState) {
    var found := Stat(t, rel);
    if known.state.Dir? then
      found.Blocked? || (found.Found? && !found.node.DirNode?)
    else if !known.state.File? then
      found.Found?
    else match found {
      case Missing => false
      case Blocked => true
      case Found(DirNode) => true
      case Found(FileNode(data, mtime)) =>
        if |data| != known.size then true
        else if known.modTime != 0 && mtime == known.modTime then false
        else |data| != known.size || HashBytes(data) != known.hash
    }
  }

  /** Put what stands at a path aside under a conflict name. */
  function MoveAside(t: Tree, rel: string, device: string, stamp: Stamp): (Tree, bool) {
    var copy := LocalConflictName(rel, device, stamp);
    var (t1, made) := EnsureParent(t, copy);
    if !made.Done? then (t1, false)
    else
      var (t2, renamed) := Rename(t1, rel, copy);
      (t2, renamed.Done? || renamed.NotExist?)
  }

  /** `downloadVersion`: the whole file is checked only after it replaced what was there. */
  function Download(t: Tree, rel: string, v: FileVersion, env: Env): (Tree, bool) {
    var (t1, written) := AtomicWrite(t, rel, env.fetched, env.now);
    if !written.Done? || env.fetched.Err? then (t1, false)
    else if !WholeFileOk(env.fetched.value, v) then (t1, false)
    else (if v.modTime > 0 then SetTime(t1, rel, v.modTime) else t1, true)
  }

  predicate IsRecorded(records: Records, rel: string, v: FileVersion) {
    rel in records && records[rel].versionId == v.versionId
  }

  /** The files after a version that is not recorded yet was applied at `rel`. */
  function ApplyToFiles(t: Tree, known: LocalFileState, rel: string, device: string, v: FileVersion, env: Env)
    : (Tree, bool)
  {
    match v.state
    case Deleted =>
      if TombstoneEntryState(v, known).Dir? then
        var (t', removed) := Remove(t, rel);
        (t', !removed.Failed?)
      else if Diverged(t, rel, known) then MoveAside(t, rel, device, env.stamp)
      else
        var (t', removed) := Remove(t, rel);
        (t', removed.Done? || removed.NotExist?)
    case Dir =>
      var (t', made) := MkdirAll(t, rel);
      (t', made.Done?)
    case File =>
      var (t1, aside) := if Diverged(t, rel, known) then MoveAside(t, rel, device, env.stamp) else (t, true);
      if aside then Download(t1, rel, v, env) else (t1, false)
    case _ => (t, false)
  }

  predicate KnownState(state: EntryState) { state.File? || state.Dir? || state.Deleted? }

  /** `applyVersion`. */
  function ApplyVersion(c: Copy, device: string, v: FileVersion, env: Env): (Copy, bool) {
    match CleanRel(v.path)
    case Err(_) => (c, false)
    case Ok(rel) =>
      if KnownState(v.state) && IsRecorded(c.records, rel, v) then (c, true)
      else
        var (t, done) := ApplyToFiles(c.tree, Known(c.records, rel), rel, device, v, env);
        if done then (c.(tree := t, records := c.records[rel := StateFromVersion(v, env.now)]), true)
        else (c.(tree := t), false)
  }

  predicate OwnEvent(device: string, root: string, e: Event) {
    e.version.device == device && e.version.root == root
  }

  /** `SetLastEventSeq` never moves the cursor back. */
  function Advance(c: Copy, e: Event): Copy { c.(cursor := Max(c.cursor, e.seqNo)) }

  /** The loop of `pullRemote`. The context is cancelled before the event no environment is left for. */
  function PullEvents(c: Copy, device: string, root: string, events: seq<Event>, envs: seq<Env>): (Copy, bool)
    decreases |events|
  {
    if events == [] then (c, true)
    else if envs == [] then (c, false)
    else if OwnEvent(device, root, events[0]) then
      PullEvents(Advance(c, events[0]), device, root, events[1..], envs[1..])
    else
      var (c1, done) := ApplyVersion(c, device, events[0].version, envs[0]);
      if done then PullEvents(Advance(c1, events[0]), device, root, events[1..], envs[1..]) else (c1, false)
  }

  /** The directories `cleanupDeletedDirs` tries to remove. */
  function DeletedDirs(records: Records): set<string> {
    set p | p in records && records[p].state.Deleted? && records[p].deletedState.Dir?
  }

  /** How `pullRemote` may end, given the server's answer: paths of one length are cleaned up in any order. */
  ghost predicate PullEnds(c: Copy, device: string, root: string, answer: seq<Event>, envs: seq<Env>, c': Copy,
                           done: bool) {
    var (c1, applied) := PullEvents(c, device, root, SortBySeq(answer), envs);
    if applied then
      c' == c1.(tree := c'.tree)
      && exists order :: LongestFirst(order) && SetOf(order) == DeletedDirs(c1.records)
                         && (c'.tree, done) == RemoveEach(c1.tree, order)
    else c' == c1 && !done
  }

  // ---------------------------------------------------------------- sorting events

  predicate Ascending(events: seq<Event>) {
    forall i, j | 0 <= i < j < |events| :: events[i].seqNo <= events[j].seqNo
  }

  /** How many events come before one of the given number. */
  function PlaceOf(seqNo: nat, events: seq<Event>): (k: nat)
    ensures k <= |events|
    ensures forall i | 0 <= i < k :: events[i].seqNo < seqNo
    ensures k < |events| ==> seqNo <= events[k].seqNo
  {
    if events == [] || seqNo <= events[0].seqNo then 0 else 1 + PlaceOf(seqNo, events[1..])
  }

  function InsertAt(e: Event, events: seq<Event>, k: nat): (r: seq<Event>)
    requires k <= |events|
  {
    events[..k] + [e] + events[k..]
  }

  /** `sort.Slice` by sequence number. */
  function SortBySeq(events: seq<Event>): seq<Event> {
    if events == [] then []
    else
      var rest := SortBySeq(events[1..]);
      InsertAt(events[0], rest, PlaceOf(events[0].seqNo, rest))
  }

  lemma InsertAscending(e: Event, events: seq<Event>)
    requires Ascending(events)
    ensures Ascending(InsertAt(e, events, PlaceOf(e.seqNo, events)))
  {
  }

  lemma InsertKeeps(e: Event, events: seq<Event>, k: nat)
    requires k <= |events|
    ensures multiset(InsertAt(e, events, k)) == multiset([e] + events)
  {
    assert events == events[..k] + events[k..];
  }

  lemma {:induction false} SortedAscending(events: seq<Event>)
    ensures Ascending(SortBySeq(events)) && multiset(SortBySeq(events)) == multiset(events)
  {
    hide InsertAt, PlaceOf, Ascending;
    if events != [] {
      var rest := SortBySeq(events[1..]);
      SortedAscending(events[1..]);
      InsertAscending(events[0], rest);
      InsertKeeps(events[0], rest, PlaceOf(events[0].seqNo, rest));
      assert events == [events[0]] + events[1..];
      assert multiset([events[0]] + rest) == multiset([events[0]]) + multiset(rest);
    } else {
      EmptyAscending();
    }
  }

  lemma EmptyAscending()
    ensures Ascending([])
  {
  }

  lemma FirstComesFirst(events: seq<Event>)
    requires Ascending(events) && events != []
    ensures Ascending(events[1..]) && PlaceOf(events[0].seqNo, events[1..]) == 0
  {
    assert forall i | 0 <= i < |events| - 1 :: events[1..][i] == events[i + 1];
  }

  /** Events that arrive in order stay as they are. */
  lemma {:induction false} SortedStay(events: seq<Event>)
    requires Ascending(events)
    ensures SortBySeq(events) == events
  {
    hide Ascending;
    if events != [] {
      var e, rest := events[0], events[1..];
      FirstComesFirst(events);
      SortedStay(rest);
      assert rest[..0] == [] && rest[0..] == rest;
      assert [] + [e] + rest == events;
    }
  }

  // ---------------------------------------------------------------- what a pull does to the records

  /** A version that was applied is recorded, one that failed is not: the step `Applied` of the protocol. */
  lemma ApplyRecords(c: Copy, device: string, v: FileVersion, env: Env)
    ensures var (c', done) := ApplyVersion(c, device, v, env);
            c'.cursor == c.cursor
            && c'.records == if done then RecordVersion(c.records, v, env.now) else c.records
  {
  }

  /** Applying a version that is recorded already changes nothing. */
  lemma RecordedStays(c: Copy, device: string, v: FileVersion, env: Env)
    requires KnownState(v.state) && CleanRel(v.path).Ok? && IsRecorded(c.records, CleanRel(v.path).value, v)
    ensures ApplyVersion(c, device, v, env) == (c, true)
  {
  }

  // ---------------------------------------------------------------- the local files stay a tree

  lemma MoveAsideWellFormed(t: Tree, rel: string, device: string, stamp: Stamp)
    requires WellFormed(t)
    ensures WellFormed(MoveAside(t, rel, device, stamp).0)
  {
    hide LocalConflictName, WellFormed, Rename, EnsureParent;
    var copy := LocalConflictName(rel, device, stamp);
    EnsureParentWellFormed(t, copy);
    RenameWellFormed(EnsureParent(t, copy).0, rel, copy);
  }

  lemma DownloadWellFormed(t: Tree, rel: string, v: FileVersion, env: Env)
    requires WellFormed(t)
    ensures WellFormed(Download(t, rel, v, env).0)
  {
    WriteWellFormed(t, rel, env.fetched, env.now);
    var t1 := AtomicWrite(t, rel, env.fetched, env.now).0;
    hide AtomicWrite;
    assert WellFormed(SetTime(t1, rel, v.modTime));
  }

  /** Whatever is applied, everything above a node is a directory. */
  lemma ApplyWellFormed(t: Tree, known: LocalFileState, rel: string, device: string, v: FileVersion, env: Env)
    requires WellFormed(t)
    ensures WellFormed(ApplyToFiles(t, known, rel, device, v, env).0)
  {
    hide MoveAside, Download, Diverged, WellFormed, Remove, MkdirAll;
    MoveAsideWellFormed(t, rel, device, env.stamp);
    RemoveWellFormed(t, rel);
    MkdirAllWellFormed(t, rel);
    var t1 := if Diverged(t, rel, known) then MoveAside(t, rel, device, env.stamp).0 else t;
    DownloadWellFormed(t1, rel, v, env);
  }

  lemma AboveAppend(stem: string, tail: string)
    requires '/' !in tail
    ensures Above(stem + tail) == Above(stem)
  {
    var p := stem + tail;
    assert forall i | |stem| <= i < |p| :: p[i] == tail[i - |stem|];
    assert forall i | 0 <= i < |stem| :: p[..i] == stem[..i];
  }

  /** A copy put aside stands in the same directory. */
  lemma CopySharesParents(rel: string, device: string, stamp: Stamp)
    ensures Above(LocalConflictName(rel, device, stamp)) == Above(rel)
    ensures |LocalConflictName(rel, device, stamp)| > |rel| && !Under(LocalConflictName(rel, device, stamp), rel)
  {
    var mark := LocalMark(device, stamp);
    TailIsPlain(device, stamp);
    PlainAppend(" (local conflict", MarkTail(device, stamp));
    AboveAppend(Stem(rel), mark + Ext(rel));
    AboveAppend(Stem(rel), Ext(rel));
    assert LocalConflictName(rel, device, stamp) == Stem(rel) + (mark + Ext(rel));
    AboveIsUnder(LocalConflictName(rel, device, stamp), rel);
    AboveIsUnder(rel, rel);
  }

  // ---------------------------------------------------------------- local names stay canonical

  ghost predicate CleanTree(t: Tree) { forall p | p in t :: IsClean(p) }

  lemma AboveClean(p: string)
    requires IsClean(p)
    ensures forall d | d in Above(p) :: IsClean(d)
  {
    forall d | d in Above(p) ensures IsClean(d) {
      AboveIsUnder(p, d);
      assert p == d + "/" + p[|d| + 1..];
      CleanAtSlash(d, p[|d| + 1..]);
    }
  }

  lemma ArrivedClean(t: Tree, from: string, to: string, q: string)
    requires CleanTree(t) && IsClean(to) && Arrives(t, from, to, q)
    ensures IsClean(q)
  {
    hide IsClean;
    if q != to {
      var rest := q[|to| + 1..];
      assert q == to + "/" + rest && Back(q, from, to) == from + "/" + rest;
      CleanAtSlash(to, rest);
      CleanAtSlash(from, rest);
    }
  }

  lemma MovedClean(t: Tree, from: string, to: string)
    requires CleanTree(t) && IsClean(to)
    ensures CleanTree(MoveTree(t, from, to))
  {
    hide IsClean, MoveTree;
    forall q | q in MoveTree(t, from, to) ensures IsClean(q) {
      MovedAt(t, from, to, q);
      if Arrives(t, from, to, q) { ArrivedClean(t, from, to, q); }
    }
  }

  lemma ParentClean(t: Tree, p: string)
    requires CleanTree(t) && IsClean(p)
    ensures CleanTree(EnsureParent(t, p).0) && CleanTree(MkdirAll(t, p).0)
  {
    AboveClean(p);
  }

  lemma MoveAsideClean(t: Tree, rel: string, device: string, stamp: Stamp)
    requires CleanTree(t) && IsClean(rel)
    ensures CleanTree(MoveAside(t, rel, device, stamp).0)
  {
    var copy := LocalConflictName(rel, device, stamp);
    LocalConflictNameIsSibling(rel, device, stamp);
    hide LocalConflictName, IsClean, CleanTree, MoveTree, EnsureParent, Rename;
    ParentClean(t, copy);
    RenameMoves(EnsureParent(t, copy).0, rel, copy);
    MovedClean(EnsureParent(t, copy).0, rel, copy);
  }

  lemma WriteClean(t: Tree, rel: string, v: FileVersion, env: Env)
    requires CleanTree(t) && IsClean(rel)
    ensures CleanTree(Remove(t, rel).0) && CleanTree(Download(t, rel, v, env).0)
  {
    hide IsClean, EnsureParent;
    ParentClean(t, rel);
  }

  lemma ApplyClean(t: Tree, known: LocalFileState, rel: string, device: string, v: FileVersion, env: Env)
    requires CleanTree(t) && IsClean(rel)
    ensures CleanTree(ApplyToFiles(t, known, rel, device, v, env).0)
  {
    hide MoveAside, Diverged, IsClean, CleanTree, Remove, Download, MkdirAll;
    ParentClean(t, rel);
    MoveAsideClean(t, rel, device, env.stamp);
    WriteClean(t, rel, v, env);
    WriteClean(MoveAside(t, rel, device, env.stamp).0, rel, v, env);
  }

  lemma {:induction false} PullClean(c: Copy, device: string, root: string, events: seq<Event>, envs: seq<Env>)
    requires CleanTree(c.tree)
    ensures CleanTree(PullEvents(c, device, root, events, envs).0.tree)
    decreases |events|
  {
    hide ApplyToFiles, CleanTree, IsClean, CleanRel;
    if events == [] || envs == [] {
    } else if OwnEvent(device, root, events[0]) {
      PullClean(Advance(c, events[0]), device, root, events[1..], envs[1..]);
    } else {
      var v := events[0].version;
      CleanRelCharacterized(v.path);
      if CleanRel(v.path).Ok? {
        var rel := CleanRel(v.path).value;
        ApplyClean(c.tree, Known(c.records, rel), rel, device, v, envs[0]);
      }
      var (c1, done) := ApplyVersion(c, device, v, envs[0]);
      if done { PullClean(Advance(c1, events[0]), device, root, events[1..], envs[1..]); }
    }
  }

  lemma {:induction false} RemoveEachClean(t: Tree, order: seq<string>)
    requires CleanTree(t)
    ensures CleanTree(RemoveEach(t, order).0)
  {
    if order != [] { RemoveEachClean(Remove(t, order[0]).0, order[1..]); }
  }

  /** Pulling puts nothing at a path that is not canonical. */
  lemma PullEndsClean(c: Copy, device: string, root: string, answer: seq<Event>, envs: seq<Env>, c': Copy, done: bool)
    requires CleanTree(c.tree) && PullEnds(c, device, root, answer, envs, c', done)
    ensures CleanTree(c'.tree)
  {
    hide CleanTree, PullEvents, RemoveEach;
    PullClean(c, device, root, SortBySeq(answer), envs);
    var (c1, applied) := PullEvents(c, device, root, SortBySeq(answer), envs);
    if applied {
      var order :| LongestFirst(order) && SetOf(order) == DeletedDirs(c1.records)
                   && (c'.tree, done) == RemoveEach(c1.tree, order);
      RemoveEachClean(c1.tree, order);
    }
  }
}
