/** When pulling keeps file content the server does not have (internal/client/sync.go), and where it is found
    afterwards: exactly, for every single event, and for whole pulls. */
module UnsyncedContent {
  import opened Model
  import opened Paths
  import opened ConflictNames
  import opened ClientRecords
  import opened LocalFiles
  import opened FileChunks
  import opened ClientEngine
  import opened DirectoryCleanup

  /** The bytes are those of the version the record names. */
  predicate Synced(known: LocalFileState, data: Bytes) {
    known.state.File? && known.size == |data| && known.hash == HashBytes(data)
  }

  predicate Holds(t: Tree, p: string, data: Bytes) { IsFile(t, p) && t[p].data == data }

  predicate Unsynced(records: Records, t: Tree, p: string, data: Bytes) {
    Holds(t, p, data) && !Synced(Known(records, p), data)
  }

  /** Equal size and time mean equal content, for the record of the path. */
  predicate HonestTime(known: LocalFileState, data: Bytes, mtime: int) {
    known.state.File? && known.size == |data| && known.modTime != 0 && known.modTime == mtime ==>
      known.hash == HashBytes(data)
  }

  ghost predicate Honest(records: Records, t: Tree) {
    forall p | p in t && t[p].FileNode? :: HonestTime(Known(records, p), t[p].data, t[p].mtime)
  }

  predicate DirTombstone(records: Records, rel: string, v: FileVersion) {
    v.state.Deleted? && TombstoneEntryState(v, Known(records, rel)).Dir?
  }

  /** Applying the version starts by moving aside what stands at `rel`. */
  predicate MovesAside(c: Copy, rel: string, v: FileVersion) {
    !IsRecorded(c.records, rel, v)
    && (v.state.File? || (v.state.Deleted? && !DirTombstone(c.records, rel, v)))
    && Diverged(c.tree, rel, Known(c.records, rel))
  }

  /** Where the file at `p` is to be found once the version was applied. */
  function LandsAt(c: Copy, device: string, v: FileVersion, env: Env, p: string): string {
    match CleanRel(v.path)
    case Err(_) => p
    case Ok(rel) =>
      if MovesAside(c, rel, v) && MoveAside(c.tree, rel, device, env.stamp).1 && Within(p, rel) then
        LocalConflictName(rel, device, env.stamp) + p[|rel|..]
      else p
  }

  /** The bytes at `p` fall to a directory's tombstone, or to a file with other bytes that takes the conflict name. */
  predicate Destroys(c: Copy, device: string, v: FileVersion, env: Env, p: string, data: Bytes) {
    match CleanRel(v.path)
    case Err(_) => false
    case Ok(rel) =>
      (p == rel && !IsRecorded(c.records, rel, v) && DirTombstone(c.records, rel, v))
      || (p == LocalConflictName(rel, device, env.stamp) && MovesAside(c, rel, v)
          && IsFile(c.tree, rel) && c.tree[rel].data != data)
  }

  /** Where something is moved aside, nothing is recorded at or below the conflict name. */
  ghost predicate Unclaimed(c: Copy, device: string, v: FileVersion, env: Env) {
    CleanRel(v.path).Ok? ==>
      var rel := CleanRel(v.path).value;
      MovesAside(c, rel, v) ==> forall q | Within(q, LocalConflictName(rel, device, env.stamp)) :: q !in c.records
  }

  // ---------------------------------------------------------------- file-system calls

  lemma MakeDirsKeeps(t: Tree, dirs: set<string>, p: string, data: Bytes)
    requires Holds(t, p, data)
    ensures Holds(MakeDirs(t, dirs).0, p, data)
  {
  }

  lemma ParentsStay(t: Tree, p: string)
    requires WellFormed(t) && p in t
    ensures EnsureParent(t, p) == (t, Done)
  {
    assert forall d | d in Above(p) :: !IsFile(t, d);
    var missing: Tree := map d | d in Above(p) && d !in t :: DirNode;
    assert t + missing == t;
  }

  /** What a successful move aside did, and that a failed one did nothing. */
  lemma AsideMoves(t: Tree, rel: string, device: string, stamp: Stamp)
    requires WellFormed(t) && !Stat(t, rel).Missing?
    ensures var (t', done) := MoveAside(t, rel, device, stamp);
            var copy := LocalConflictName(rel, device, stamp);
            |copy| > |rel|
            && (!done ==> t' == t)
            && (done ==> rel in t && t' == MoveTree(t, rel, copy) && !IsDir(t, copy) && !Under(copy, rel)
                         && (IsFile(t, copy) ==> IsFile(t, rel)))
            && (IsFile(t, rel) && IsFile(t, copy) ==> done)
  {
    var copy := LocalConflictName(rel, device, stamp);
    CopySharesParents(rel, device, stamp);
    hide LocalConflictName, MoveTree;
    if rel in t {
      ParentsStay(t, rel);
      assert EnsureParent(t, copy) == (t, Done);
      if Under(copy, rel) { AboveIsUnder(copy, rel); }
      assert !BlockedAbove(t, copy);
    } else {
      assert EnsureParent(t, copy).0 == t && !EnsureParent(t, copy).1.Done?;
    }
  }

  /** The bytes after a move: what stood at or below the path is at or below the new name; a file that stood there
      gives way. */
  lemma MoveLands(t: Tree, rel: string, copy: string, p: string, data: Bytes)
    requires WellFormed(t) && Holds(t, p, data) && rel in t && rel != copy
    requires !IsDir(t, copy) && !Under(copy, rel) && (IsFile(t, copy) ==> IsFile(t, rel))
    ensures var t' := MoveTree(t, rel, copy);
            if Within(p, rel) then Holds(t', copy + p[|rel|..], data)
            else Holds(t', p, data) <==> !(p == copy && t[rel].data != data)
  {
    hide MoveTree;
    if Within(p, rel) {
      var q := copy + p[|rel|..];
      assert Back(q, rel, copy) == p;
      assert Within(q, copy) by { if p != rel { assert q[|copy|] == p[|rel|]; } else { assert q == copy; } }
      MovedAt(t, rel, copy, q);
    } else {
      MovedAt(t, rel, copy, p);
      if Under(p, copy) { AboveIsUnder(p, copy); }
      if p == copy { assert Back(copy, rel, copy) == rel; }
    }
  }

  /** The same for a move aside, which may fail. */
  lemma AsideLands(t: Tree, rel: string, device: string, stamp: Stamp, p: string, data: Bytes)
    requires WellFormed(t) && Holds(t, p, data) && !Stat(t, rel).Missing?
    ensures var (t', done) := MoveAside(t, rel, device, stamp);
            var copy := LocalConflictName(rel, device, stamp);
            if done && Within(p, rel) then Holds(t', copy + p[|rel|..], data)
            else Holds(t', p, data) <==> !(p == copy && IsFile(t, rel) && t[rel].data != data)
  {
    AsideMoves(t, rel, device, stamp);
    hide LocalConflictName, MoveTree, MoveAside, WellFormed;
    if MoveAside(t, rel, device, stamp).1 { MoveLands(t, rel, LocalConflictName(rel, device, stamp), p, data); }
  }

  lemma DownloadLeaves(t: Tree, rel: string, v: FileVersion, env: Env, p: string, data: Bytes)
    requires p != rel
    ensures Holds(Download(t, rel, v, env).0, p, data) <==> Holds(t, p, data)
  {
  }

  /** Unsynced bytes are seen as a divergence. */
  lemma UnsyncedDiverges(t: Tree, rel: string, known: LocalFileState, data: Bytes)
    requires Holds(t, rel, data) && !Synced(known, data) && HonestTime(known, data, t[rel].mtime)
    ensures Diverged(t, rel, known)
  {
  }

  // ---------------------------------------------------------------- one event

  /** For every event, applied with success or not: the bytes are found at the landing place if and only if the event
      does not destroy them. */
  lemma BytesLand(c: Copy, device: string, v: FileVersion, env: Env, p: string, data: Bytes)
    requires WellFormed(c.tree) && Honest(c.records, c.tree) && Unsynced(c.records, c.tree, p, data)
    ensures Holds(ApplyVersion(c, device, v, env).0.tree, LandsAt(c, device, v, env, p), data)
       <==> !Destroys(c, device, v, env, p, data)
  {
    hide CleanRel, LocalConflictName, MoveAside, Download, Diverged, Honest, WellFormed, MakeDirs, Synced, HonestTime;
    if CleanRel(v.path).Ok? {
      var rel := CleanRel(v.path).value;
      var t, known := c.tree, Known(c.records, rel);
      var copy := LocalConflictName(rel, device, env.stamp);
      if p == rel { HonestAt(c, p); UnsyncedDiverges(t, rel, known, data); }
      CopySharesParents(rel, device, env.stamp);
      if MovesAside(c, rel, v) {
        DivergedIsThere(t, rel, known);
        AsideLands(t, rel, device, env.stamp, p, data);
        var (t1, aside) := MoveAside(t, rel, device, env.stamp);
        if v.state.File? && aside { DownloadLeaves(t1, rel, v, env, LandsAt(c, device, v, env, p), data); }
      } else if v.state.File? {
        if !IsRecorded(c.records, rel, v) { DownloadLeaves(t, rel, v, env, p, data); }
      } else if v.state.Dir? {
        MakeDirsKeeps(t, Above(rel) + {rel}, p, data);
      }
    }
  }

  lemma HonestAt(c: Copy, p: string)
    requires Honest(c.records, c.tree) && IsFile(c.tree, p)
    ensures HonestTime(Known(c.records, p), c.tree[p].data, c.tree[p].mtime)
  {
  }

  lemma DivergedIsThere(t: Tree, rel: string, known: LocalFileState)
    requires Diverged(t, rel, known)
    ensures !Stat(t, rel).Missing?
  {
  }

  /** An event that does not destroy them leaves unsynced bytes, still unsynced, where they were or, with what stood
      at the event's path, under the conflict name. */
  lemma ApplyKeeps(c: Copy, device: string, v: FileVersion, env: Env, p: string, data: Bytes)
    requires WellFormed(c.tree) && Honest(c.records, c.tree) && Unsynced(c.records, c.tree, p, data)
    requires Unclaimed(c, device, v, env) && !Destroys(c, device, v, env, p, data)
    ensures var c' := ApplyVersion(c, device, v, env).0;
            Unsynced(c'.records, c'.tree, LandsAt(c, device, v, env, p), data)
  {
    BytesLand(c, device, v, env, p, data);
    hide CleanRel, LocalConflictName, MoveAside, Download, Diverged, Honest, WellFormed, MakeDirs, Remove;
    if CleanRel(v.path).Ok? {
      var rel := CleanRel(v.path).value;
      var copy := LocalConflictName(rel, device, env.stamp);
      CopySharesParents(rel, device, env.stamp);
      var q := LandsAt(c, device, v, env, p);
      if q != p {
        assert Within(q, copy) by { if p != rel { assert q[|copy|] == p[|rel|]; } else { assert q == copy; } }
      }
      if p == rel {
        HonestAt(c, p);
        UnsyncedDiverges(c.tree, rel, Known(c.records, rel), data);
        if v.state.Dir? { FileInTheWay(c.tree, rel); }
      }
    }
  }

  lemma FileInTheWay(t: Tree, rel: string)
    requires IsFile(t, rel)
    ensures !MkdirAll(t, rel).1.Done?
  {
  }

  /** Two files never land at one place, save that the one at the path and the one at its conflict name do, the
      latter giving way. */
  lemma LandApart(c: Copy, device: string, v: FileVersion, env: Env, p: string, q: string)
    requires WellFormed(c.tree) && IsFile(c.tree, p) && IsFile(c.tree, q) && p != q
    requires LandsAt(c, device, v, env, p) == LandsAt(c, device, v, env, q)
    ensures CleanRel(v.path).Ok?
    ensures var rel := CleanRel(v.path).value;
            MovesAside(c, rel, v) && {p, q} == {rel, LocalConflictName(rel, device, env.stamp)}
  {
    hide CleanRel, LocalConflictName, MoveAside, Diverged;
    var rel := CleanRel(v.path).value;
    var copy := LocalConflictName(rel, device, env.stamp);
    DivergedIsThere(c.tree, rel, Known(c.records, rel));
    AsideMoves(c.tree, rel, device, env.stamp);
    if Within(p, rel) { LandOnCopy(c.tree, rel, copy, p, q); }
    if Within(q, rel) { LandOnCopy(c.tree, rel, copy, q, p); }
  }

  lemma LandOnCopy(t: Tree, rel: string, copy: string, p: string, q: string)
    requires WellFormed(t) && p in t && q in t && p != q && !IsDir(t, copy) && Within(p, rel)
    ensures Within(q, rel) ==> copy + p[|rel|..] != copy + q[|rel|..]
    ensures copy + p[|rel|..] == q ==> p == rel && q == copy
  {
    var r := copy + p[|rel|..];
    assert p == rel + p[|rel|..];
    assert r[|copy|..] == p[|rel|..];
    if Within(q, rel) {
      assert q == rel + q[|rel|..];
      assert (copy + q[|rel|..])[|copy|..] == q[|rel|..];
    }
    if p != rel && r == q {
      AboveIsUnder(q, copy);
      assert false;
    }
  }

  /** What stands at `rel` is put aside first. */
  predicate Put(t: Tree, known: LocalFileState, rel: string, v: FileVersion) {
    (v.state.File? || (v.state.Deleted? && !TombstoneEntryState(v, known).Dir?)) && Diverged(t, rel, known)
  }

  /** Whatever file stands at `p` now stood there before, or came with a move to the conflict name. */
  predicate CameFrom(t: Tree, t': Tree, copy: string, moved: bool, p: string) {
    IsFile(t', p) ==> (p in t && t[p] == t'[p]) || (moved && Within(p, copy))
  }

  lemma MoveAsideFiles(t: Tree, rel: string, device: string, stamp: Stamp, p: string)
    ensures CameFrom(t, MoveAside(t, rel, device, stamp).0, LocalConflictName(rel, device, stamp), true, p)
  {
    hide LocalConflictName;
    var copy := LocalConflictName(rel, device, stamp);
    MovedAt(EnsureParent(t, copy).0, rel, copy, p);
  }

  lemma DownloadFiles(t: Tree, rel: string, v: FileVersion, env: Env, copy: string, p: string)
    requires p != rel
    ensures CameFrom(t, Download(t, rel, v, env).0, copy, false, p)
  {
  }

  /** No other file appears than those moved and the one downloaded, which is the version's content. */
  lemma FilesAppear(t: Tree, known: LocalFileState, rel: string, device: string, v: FileVersion, env: Env, p: string)
    ensures var (t', done) := ApplyToFiles(t, known, rel, device, v, env);
            (p != rel ==> CameFrom(t, t', LocalConflictName(rel, device, env.stamp), Put(t, known, rel, v), p))
            && (done && v.state.File? && IsFile(t', rel) ==> WholeFileOk(t'[rel].data, v))
  {
    hide MoveAside, Diverged, LocalConflictName;
    var copy := LocalConflictName(rel, device, env.stamp);
    MoveAsideFiles(t, rel, device, env.stamp, p);
    if v.state.File? && p != rel {
      var t1 := if Diverged(t, rel, known) then MoveAside(t, rel, device, env.stamp).0 else t;
      DownloadFiles(t1, rel, v, env, copy, p);
    }
  }

  /** After a version was applied, equal size and time still mean equal content. */
  lemma ApplyHonest(c: Copy, device: string, v: FileVersion, env: Env)
    requires Honest(c.records, c.tree) && Unclaimed(c, device, v, env) && ApplyVersion(c, device, v, env).1
    ensures var c' := ApplyVersion(c, device, v, env).0; Honest(c'.records, c'.tree)
  {
    hide ApplyToFiles, LocalConflictName, CleanRel;
    var c' := ApplyVersion(c, device, v, env).0;
    if c' != c {
      var rel := CleanRel(v.path).value;
      forall p | p in c'.tree && c'.tree[p].FileNode?
        ensures HonestTime(Known(c'.records, p), c'.tree[p].data, c'.tree[p].mtime)
      {
        FilesAppear(c.tree, Known(c.records, rel), rel, device, v, env, p);
        assert Put(c.tree, Known(c.records, rel), rel, v) ==> MovesAside(c, rel, v);
        if p in c.tree && c.tree[p] == c'.tree[p] {
          assert HonestTime(Known(c.records, p), c.tree[p].data, c.tree[p].mtime);
        }
      }
    }
  }

  // ---------------------------------------------------------------- a whole pull

  /** Where the file at `p` is to be found once the events were applied, following it from event to event. */
  function LandsAfter(c: Copy, device: string, root: string, events: seq<Event>, envs: seq<Env>, p: string): string
    decreases |events|
  {
    if events == [] || envs == [] then p
    else if OwnEvent(device, root, events[0]) then
      LandsAfter(Advance(c, events[0]), device, root, events[1..], envs[1..], p)
    else
      var q := LandsAt(c, device, events[0].version, envs[0], p);
      var (c1, done) := ApplyVersion(c, device, events[0].version, envs[0]);
      if done then LandsAfter(Advance(c1, events[0]), device, root, events[1..], envs[1..], q) else q
  }

  /** No event of the pull destroys the bytes, wherever they have landed by then, and what is moved aside takes no
      recorded name. */
  ghost predicate Spared(c: Copy, device: string, root: string, events: seq<Event>, envs: seq<Env>, p: string,
                         data: Bytes)
    decreases |events|
  {
    if events == [] || envs == [] then true
    else if OwnEvent(device, root, events[0]) then
      Spared(Advance(c, events[0]), device, root, events[1..], envs[1..], p, data)
    else
      var v := events[0].version;
      Unclaimed(c, device, v, envs[0]) && !Destroys(c, device, v, envs[0], p, data)
      && var (c1, done) := ApplyVersion(c, device, v, envs[0]);
         done ==> Spared(Advance(c1, events[0]), device, root, events[1..], envs[1..],
                         LandsAt(c, device, v, envs[0], p), data)
  }

  /** Over any list of events, applied to the end or cut short by a failure: unsynced bytes that are spared are found
      where they landed, still unsynced. */
  lemma {:induction false} PullKeeps(c: Copy, device: string, root: string, events: seq<Event>, envs: seq<Env>,
                                     p: string, data: Bytes)
    requires WellFormed(c.tree) && Honest(c.records, c.tree) && Unsynced(c.records, c.tree, p, data)
    requires Spared(c, device, root, events, envs, p, data)
    ensures var c' := PullEvents(c, device, root, events, envs).0;
            WellFormed(c'.tree) && Unsynced(c'.records, c'.tree, LandsAfter(c, device, root, events, envs, p), data)
    decreases |events|
  {
    hide ApplyVersion, Unsynced, Honest, Unclaimed, Destroys, LandsAt, WellFormed;
    if events == [] || envs == [] {
    } else if OwnEvent(device, root, events[0]) {
      PullKeeps(Advance(c, events[0]), device, root, events[1..], envs[1..], p, data);
    } else {
      var v := events[0].version;
      var (c1, done) := ApplyVersion(c, device, v, envs[0]);
      ApplyKeeps(c, device, v, envs[0], p, data);
      VersionWellFormed(c, device, v, envs[0]);
      if done {
        ApplyHonest(c, device, v, envs[0]);
        PullKeeps(Advance(c1, events[0]), device, root, events[1..], envs[1..],
                  LandsAt(c, device, v, envs[0], p), data);
      }
    }
  }

  lemma VersionWellFormed(c: Copy, device: string, v: FileVersion, env: Env)
    requires WellFormed(c.tree)
    ensures WellFormed(ApplyVersion(c, device, v, env).0.tree)
  {
    hide ApplyToFiles, WellFormed, CleanRel;
    if CleanRel(v.path).Ok? {
      var rel := CleanRel(v.path).value;
      ApplyWellFormed(c.tree, Known(c.records, rel), rel, device, v, env);
    }
  }

  lemma {:induction false} CleanupKeeps(t: Tree, order: seq<string>, p: string, data: Bytes)
    requires Holds(t, p, data) && p !in order
    ensures Holds(RemoveEach(t, order).0, p, data)
  {
    if order != [] { CleanupKeeps(Remove(t, order[0]).0, order[1..], p, data); }
  }

  /** However a pull ends, its cleanup included: unsynced bytes that its events spare are found where they landed,
      still unsynced, unless a deleted directory is recorded at that very place; then a finished pull has taken them. */
  lemma PullNeverDestroys(c: Copy, device: string, root: string, answer: seq<Event>, envs: seq<Env>, c': Copy,
                          done: bool, p: string, data: Bytes)
    requires PullEnds(c, device, root, answer, envs, c', done)
    requires WellFormed(c.tree) && Honest(c.records, c.tree) && Unsynced(c.records, c.tree, p, data)
    requires Spared(c, device, root, SortBySeq(answer), envs, p, data)
    ensures var q := LandsAfter(c, device, root, SortBySeq(answer), envs, p);
            (q !in DeletedDirs(c'.records) ==> Unsynced(c'.records, c'.tree, q, data))
            && (done && q in DeletedDirs(c'.records) ==> q !in c'.tree)
  {
    hide Spared, PullEvents, Honest, SortBySeq, LandsAfter, RemoveEach, WellFormed;
    var (c1, applied) := PullEvents(c, device, root, SortBySeq(answer), envs);
    PullKeeps(c, device, root, SortBySeq(answer), envs, p, data);
    var q := LandsAfter(c, device, root, SortBySeq(answer), envs, p);
    if applied {
      var order :| LongestFirst(order) && SetOf(order) == DeletedDirs(c1.records)
                   && (c'.tree, done) == RemoveEach(c1.tree, order);
      if q !in DeletedDirs(c1.records) {
        assert q !in SetOf(order);
        CleanupKeeps(c1.tree, order, q, data);
      } else {
        AnyOrderCleans(c1.tree, order);
        FileCleaned(c1.tree, SetOf(order), q);
      }
    }
  }

  lemma FileCleaned(t: Tree, dirs: set<string>, p: string)
    requires WellFormed(t) && IsFile(t, p) && p in dirs
    ensures p !in Cleaned(t, dirs)
  {
    forall q | q in t ensures !Under(q, p) { AboveIsUnder(q, p); }
  }

  // ---------------------------------------------------------------- why the conditions are needed

  /** `os.Remove` takes a regular file that stands where a directory was deleted. */
  lemma DirTombstoneTakesFile(c: Copy, device: string, v: FileVersion, env: Env, data: Bytes)
    requires CleanRel(v.path) == Ok(v.path) && !IsRecorded(c.records, v.path, v) && DirTombstone(c.records, v.path, v)
    requires Holds(c.tree, v.path, data)
    ensures var (c', done) := ApplyVersion(c, device, v, env); done && c'.tree == c.tree - {v.path}
  {
  }

  /** The conflict name is not checked: an unsynced file there gives way to the one moved aside. */
  lemma TakenNameIsOverwritten(t: Tree, rel: string, device: string, stamp: Stamp, mine: Bytes, other: Bytes)
    requires WellFormed(t)
    requires Holds(t, rel, mine) && Holds(t, LocalConflictName(rel, device, stamp), other)
    ensures var (t', done) := MoveAside(t, rel, device, stamp);
            done && rel !in t' && Holds(t', LocalConflictName(rel, device, stamp), mine)
  {
    AsideMoves(t, rel, device, stamp);
    hide LocalConflictName, MoveTree, MoveAside, WellFormed;
    var copy := LocalConflictName(rel, device, stamp);
    MovedAt(t, rel, copy, rel);
    MovedAt(t, rel, copy, copy);
    assert Back(copy, rel, copy) == rel;
  }
}
