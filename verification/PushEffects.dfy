/** What an answered request changes on the server, path by path (internal/server/store.go). */
module PushEffects {
  import opened Model
  import opened Paths
  import opened ConflictNames
  import opened StoreSpec
  import opened StoreInvariant
  import opened StoreGrowth
  import opened StoreCommit
  import opened NoLostUpdate

  predicate HasVersion(files: map<Key, FileEntry>, key: Key) { key in files && files[key].current.Some? }

  /** A tombstone or a file stands where a directory would have to be. */
  predicate Taken(files: map<Key, FileEntry>, key: Key) { HasVersion(files, key) && !LiveDir(files[key]) }

  /** The entry and the last event at `key` are the same in both states. */
  ghost predicate SameKey(s: Server, s': Server, key: Key) {
    SameAt(s.files, s'.files, key) && LastAt(s'.log, key) == LastAt(s.log, key)
  }

  ghost predicate IsCopyName(p: string, d: string, device: string) {
    exists stamp: Stamp, n: nat :: p == Candidate(d, device, stamp, n)
  }

  // ---------------------------------------------------------------- landing a version

  lemma LandElsewhere(s: Server, o: Origin, m: Manifest, at: Key, state: EntryState, now: int, key: Key)
    requires at in s.files && at.account == o.account && at.space == o.space && key != at
    ensures SameKey(s, Land(s, o, m, at, state, now), key)
  {
  }

  /** The version that landed: the entry's, the last of its path, the answer's. */
  ghost predicate Landed(s: Server, s': Server, o: Origin, m: Manifest, at: Key, state: EntryState) {
    at in s'.files && s'.files[at].current.Some? && LastAt(s'.log, at) == s'.files[at].current
    && var v := s'.files[at].current.value;
       Carries(v, m, state) && v.path == at.name && v.fileId == s'.files[at].fileId
       && (at in s.files ==> s'.files[at].fileId == s.files[at].fileId)
       && (state.Dir? ==> LiveDir(s'.files[at]))
  }

  lemma LandLands(s: Server, o: Origin, m: Manifest, at: Key, state: EntryState, now: int)
    requires at in s.files && at.account == o.account && at.space == o.space
    ensures Landed(s, Land(s, o, m, at, state, now), o, m, at, state)
  {
  }

  lemma NewEntryElsewhere(s: Server, at: Key, key: Key)
    requires key != at
    ensures SameKey(s, EnsureEntry(s, at), key) && (at !in s.files ==> SameKey(s, NewEntry(s, at), key))
  {
  }

  lemma SameKeyTransitive(a: Server, b: Server, c: Server, key: Key)
    requires SameKey(a, b, key) && SameKey(b, c, key)
    ensures SameKey(a, c, key)
  {
  }

  // ---------------------------------------------------------------- making parents

  /** The entry at `key` has the file id it had, or one drawn since. */
  predicate OldOrNewId(s: Server, s': Server, key: Key)
    requires key in s'.files
  {
    if key in s.files then s'.files[key].fileId == s.files[key].fileId
    else s'.files[key].fileId.Issued? && s'.files[key].fileId.n >= s.nextId
  }

  /** A directory was made at `key` for the missing one at `d`: in its place if nothing was there, otherwise
      beside it. */
  ghost predicate DirMade(s: Server, s': Server, o: Origin, key: Key, d: string) {
    key.account == o.account && key.space == o.space
    && IsLiveDir(s'.files, key) && LastAt(s'.log, key) == s'.files[key].current
    && OldOrNewId(s, s', key)
    && if key.name == d then !HasVersion(s.files, key)
       else Taken(s.files, Key(o.account, o.space, d)) && key.name !in UsedPaths(s.files)
            && IsCopyName(key.name, d, o.device)
  }

  lemma CopyIsNamed(s: Server, o: Origin, path: string, clock: Clock)
    ensures var copy := CopyKey(s, o, path, clock);
            IsCopyName(copy.name, path, o.device) && copy.name !in UsedPaths(s.files)
            && copy.account == o.account && copy.space == o.space
  {
  }

  lemma ParentBeside(s: Server, o: Origin, d: string, modTime: int, clock: Clock, key: Key)
    requires KeysMatch(s.files) && Taken(s.files, Key(o.account, o.space, d)) && IsClean(d)
    ensures var copy := CopyKey(s, o, d, clock);
            var s' := LandAt(NewEntry(s, copy), o, DirManifest(d, modTime), copy, Dir, clock.now, true).0;
            SameKey(s, s', key) || DirMade(s, s', o, key, d)
  {
    hide Land, CopyKey, UsedPaths, IsClean, LiveDir, KeysMatch;
    var copy := CopyKey(s, o, d, clock);
    CopyIsNamed(s, o, d, clock);
    FreshCopy(s, o, d, clock);
    var m := DirManifest(d, modTime);
    if key == copy {
      LandLands(NewEntry(s, copy), o, m, copy, Dir, clock.now);
    } else {
      NewEntryElsewhere(s, copy, key);
      LandElsewhere(NewEntry(s, copy), o, m, copy, Dir, clock.now, key);
      SameKeyTransitive(s, NewEntry(s, copy), Land(NewEntry(s, copy), o, m, copy, Dir, clock.now), key);
    }
  }

  lemma ParentInPlace(s: Server, o: Origin, d: string, modTime: int, clock: Clock, key: Key)
    requires !HasVersion(s.files, Key(o.account, o.space, d))
    ensures var at := Key(o.account, o.space, d);
            var s' := LandAt(EnsureEntry(s, at), o, DirManifest(d, modTime), at, Dir, clock.now, false).0;
            SameKey(s, s', key) || DirMade(s, s', o, key, d)
  {
    hide Land, LiveDir;
    var at := Key(o.account, o.space, d);
    var m := DirManifest(d, modTime);
    if key == at {
      LandLands(EnsureEntry(s, at), o, m, at, Dir, clock.now);
    } else {
      NewEntryElsewhere(s, at, key);
      LandElsewhere(EnsureEntry(s, at), o, m, at, Dir, clock.now, key);
      SameKeyTransitive(s, EnsureEntry(s, at), Land(EnsureEntry(s, at), o, m, at, Dir, clock.now), key);
    }
  }

  /** Making one parent changes nothing else. */
  lemma ParentMade(s: Server, o: Origin, d: string, modTime: int, clock: Clock, key: Key)
    requires Inv(s) && IsClean(d) && !IsLiveDir(s.files, Key(o.account, o.space, d))
    ensures var s' := CommitEntry(s, o, DirManifest(d, modTime), d, Dir, clock).0;
            SameKey(s, s', key) || DirMade(s, s', o, key, d)
  {
    hide Inv, LandAt, IsClean, CopyKey, SameKey, DirMade, KeysMatch;
    var at := Key(o.account, o.space, d);
    InvKeysMatch(s);
    if HasVersion(s.files, at) {
      CurrentIdsIssued(s);
      ParentBeside(s, o, d, modTime, clock, key);
    } else {
      ParentInPlace(s, o, d, modTime, clock, key);
    }
  }

  /** Some directory was made at `key`, or nothing happened there. */
  ghost predicate OnlyDirsMade(s: Server, s': Server, o: Origin, dirs: seq<string>, key: Key) {
    SameKey(s, s', key) || exists i :: 0 <= i < |dirs| && DirMade(s, s', o, key, dirs[i])
  }

  /** What was made stays as it is while more is made. */
  lemma MadeOnce(s: Server, s1: Server, s': Server, o: Origin, dirs: seq<string>, key: Key)
    requires KeysMatch(s.files) && KeysMatch(s1.files) && Kept(s.files, s1.files) && s.nextId <= s1.nextId
             && dirs != []
    requires SameKey(s, s1, key) || DirMade(s, s1, o, key, dirs[0])
    requires forall d :: var k := Key(o.account, o.space, d); SameKey(s, s1, k) || DirMade(s, s1, o, k, dirs[0])
    requires OnlyDirsMade(s1, s', o, dirs[1..], key)
    ensures OnlyDirsMade(s, s', o, dirs, key)
  {
  }

  lemma UsedIs(s: Server, key: Key)
    requires KeysMatch(s.files) && key in s.files
    ensures key.name in UsedPaths(s.files)
  {
  }

  lemma UsedStays(s: Server, s': Server, p: string)
    requires KeysMatch(s.files) && KeysMatch(s'.files) && s.files.Keys <= s'.files.Keys
    ensures p in UsedPaths(s.files) ==> p in UsedPaths(s'.files)
  {
  }

  /** Making the missing parents makes directories and nothing else. */
  lemma {:induction false} ParentsMade(s: Server, o: Origin, dirs: seq<string>, modTime: int, clock: Clock, key: Key)
    requires Inv(s) && AllClean(dirs)
    ensures OnlyDirsMade(s, EnsureParents(s, o, dirs, modTime, clock), o, dirs, key)
    decreases |dirs|
  {
    hide Inv, CommitEntry, IsClean, SameKey, DirMade, KeysMatch, Kept, LiveDir;
    if dirs == [] {
      SameItself(s, key);
    } else {
      assert IsClean(dirs[0]) && AllClean(dirs[1..]) by {
        assert forall i | 0 <= i < |dirs[1..]| :: dirs[1..][i] == dirs[i + 1];
      }
      if IsLiveDir(s.files, Key(o.account, o.space, dirs[0])) {
        ParentsMade(s, o, dirs[1..], modTime, clock, key);
        MoreDirs(s, EnsureParents(s, o, dirs, modTime, clock), o, dirs, key);
      } else {
        var m := DirManifest(dirs[0], modTime);
        var s1 := CommitEntry(s, o, m, dirs[0], Dir, clock).0;
        CommitEntryInv(s, o, m, dirs[0], Dir, clock);
        CommitParentKeeps(s, o, dirs[0], modTime, clock);
        CommitEntryFresh(s, o, m, dirs[0], Dir, clock);
        InvKeysMatch(s);
        InvKeysMatch(s1);
        ParentMade(s, o, dirs[0], modTime, clock, key);
        forall d ensures var k := Key(o.account, o.space, d); SameKey(s, s1, k) || DirMade(s, s1, o, k, dirs[0]) {
          ParentMade(s, o, dirs[0], modTime, clock, Key(o.account, o.space, d));
        }
        ParentsMade(s1, o, dirs[1..], modTime, clock, key);
        MadeOnce(s, s1, EnsureParents(s, o, dirs, modTime, clock), o, dirs, key);
      }
    }
  }

  lemma SameItself(s: Server, key: Key)
    ensures SameKey(s, s, key)
  {
  }

  lemma MoreDirs(s: Server, s': Server, o: Origin, dirs: seq<string>, key: Key)
    requires dirs != [] && OnlyDirsMade(s, s', o, dirs[1..], key)
    ensures OnlyDirsMade(s, s', o, dirs, key)
  {
  }

  // ---------------------------------------------------------------- an answered upload

  /** What an upload that was not diverted leaves: directories for missing parents, and the version at its path. */
  ghost predicate Answered(s: Server, s': Server, o: Origin, m: Manifest, r: CommitResponse) {
    var at := Key(o.account, o.space, m.path);
    (forall key | key != at :: OnlyDirsMade(s, s', o, Ancestors(m.path), key))
    && at in s'.files && r.version == s'.files[at].current
    && (m.fileId != NoId ==> s'.files[at].fileId == m.fileId)
    && OldOrNewId(s, s', at)
    && if m.state.Dir? && IsLiveDir(s.files, at) then SameKey(s, s', at) else Landed(s, s', o, m, at, m.state)
  }

  /** Nothing but a live directory, to which a directory comes, or the version the upload is based on is at its path. */
  predicate NotDiverted(s: Server, at: Key, m: Manifest) {
    HasVersion(s.files, at) ==>
      (m.state.Dir? && LiveDir(s.files[at])) || m.base == s.files[at].current.value.versionId
  }

  lemma EntryAnswered(s: Server, o: Origin, m: Manifest, clock: Clock)
    requires (m.state.File? || m.state.Dir?) && NotDiverted(s, Key(o.account, o.space, m.path), m)
    requires CommitEntry(s, o, m, m.path, m.state, clock).1.Ok?
    ensures var (s', r) := CommitEntry(s, o, m, m.path, m.state, clock);
            Answered(s, s', o, m, r.value)
            && forall key | key != Key(o.account, o.space, m.path) :: SameKey(s, s', key)
  {
    hide Land, SameKey, DirMade, LiveDir;
    var at := Key(o.account, o.space, m.path);
    var s1 := EnsureEntry(s, at);
    var (s', r) := CommitEntry(s, o, m, m.path, m.state, clock);
    LandTables(s1, o, m, at, m.state, clock.now);
    forall key | key != at ensures SameKey(s, s', key) {
      NewEntryElsewhere(s, at, key);
      if s' != s1 {
        LandElsewhere(s1, o, m, at, m.state, clock.now, key);
        SameKeyTransitive(s, s1, s', key);
      }
    }
    if m.state.Dir? && IsLiveDir(s.files, at) {
      SameItself(s, at);
    } else {
      assert !LiveDir(s1.files[at]) || !m.state.Dir? by { BlankNotLive(at, Issued(s.nextId)); }
      LandLands(s1, o, m, at, m.state, clock.now);
    }
  }

  lemma BlankNotLive(key: Key, id: Id)
    ensures !LiveDir(BlankEntry(key, id))
  {
  }

  lemma MadeThenSame(s: Server, s1: Server, s': Server, o: Origin, dirs: seq<string>, key: Key)
    requires OnlyDirsMade(s, s1, o, dirs, key) && SameKey(s1, s', key)
    ensures OnlyDirsMade(s, s', o, dirs, key)
  {
  }

  /** The state in which the entry is looked up has the same entry and last event at the path itself. */
  lemma OwnPathSame(s: Server, account: string, space: string, req: CommitRequest, plan: Plan, clock: Clock)
    requires Inv(s) && IsClean(plan.path)
    ensures var s1 := AfterParents(s, account, space, req, plan, clock);
            SameKey(s, s1, Key(account, space, plan.path))
  {
    hide Inv, IsClean, EnsureParents, LastAt, KeysMatch, LiveDir, IsCopyName;
    var o := RequestOrigin(account, space, req.device, req.root);
    var at, dirs := Key(account, space, plan.path), Ancestors(plan.path);
    var s1 := AfterParents(s, account, space, req, plan, clock);
    AncestorsAllClean(plan.path);
    AfterParentsSameAt(s, account, space, req, plan, clock);
    InvKeysMatch(s);
    ParentsMade(s, o, dirs, req.manifest.modTime, clock, at);
    if !SameKey(s, s1, at) {
      var i :| 0 <= i < |dirs| && DirMade(s, s1, o, at, dirs[i]);
      AncestorsClean(plan.path, i);
      if at in s.files { UsedIs(s, at); LiveHasVersion(s.files[at]); }
      assert false;
    }
  }

  lemma LiveHasVersion(e: FileEntry)
    requires LiveDir(e)
    ensures e.current.Some?
  {
  }

  lemma AnsweredEarlier(s: Server, s1: Server, s': Server, o: Origin, m: Manifest, r: CommitResponse)
    requires var at := Key(o.account, o.space, m.path);
             SameKey(s, s1, at) && s.nextId <= s1.nextId && Answered(s1, s', o, m, r)
             && forall key | key != at :: OnlyDirsMade(s, s', o, Ancestors(m.path), key)
    ensures Answered(s, s', o, m, r)
  {
  }

  /** A first commit of a clean path that is answered. */
  lemma LockedAnswered(s: Server, account: string, space: string, req: CommitRequest, clock: Clock)
    requires var m := req.manifest;
             Inv(s) && Ready(s, account, m, Plan(m.path, m.state)) && Key(account, space, req.opId) !in s.ops
             && NotDiverted(s, Key(account, space, m.path), m)
    requires CommitLocked(s, account, space, req, Plan(req.manifest.path, req.manifest.state), clock).1.Ok?
    ensures var (s', r) := CommitLocked(s, account, space, req, Plan(req.manifest.path, req.manifest.state), clock);
            Answered(s, s', RequestOrigin(account, space, req.device, req.root), req.manifest, r.value)
  {
    hide Inv, IsClean, EnsureParents, Ancestors, CommitEntry, Grows, Kept, SameKey, OnlyDirsMade, Landed, LiveDir,
         AllClean;
    var m := req.manifest;
    var o, plan, at := RequestOrigin(account, space, req.device, req.root), Plan(m.path, m.state),
                       Key(account, space, m.path);
    var s1 := AfterParents(s, account, space, req, plan, clock);
    AfterParentsInv(s, account, space, req, plan, clock);
    OwnPathSame(s, account, space, req, plan, clock);
    SameEntry(s, s1, at);
    var (s2, r) := CommitEntry(s1, o, m, m.path, m.state, clock);
    EntryAnswered(s1, o, m, clock);
    AncestorsAllClean(m.path);
    forall key | key != at ensures OnlyDirsMade(s, s2, o, Ancestors(m.path), key) {
      ParentsMade(s, o, Ancestors(m.path), m.modTime, clock, key);
      MadeThenSame(s, s1, s2, o, Ancestors(m.path), key);
    }
    AnsweredEarlier(s, s1, s2, o, m, r.value);
    var s' := CommitLocked(s, account, space, req, plan, clock).0;
    AnsweredTables(s, s2, s, s', o, m, r.value);
  }

  lemma SameEntry(s: Server, s': Server, key: Key)
    requires SameKey(s, s', key)
    ensures HasVersion(s.files, key) == HasVersion(s'.files, key)
    ensures HasVersion(s.files, key) ==> s'.files[key] == s.files[key]
  {
  }

  /** Only the entries, the log and the id source matter to what an answer leaves. */
  lemma AnsweredTables(s: Server, s': Server, t: Server, t': Server, o: Origin, m: Manifest, r: CommitResponse)
    requires t.files == s.files && t.log == s.log && t.nextId == s.nextId && t'.files == s'.files && t'.log == s'.log
    requires Answered(s, s', o, m, r)
    ensures Answered(t, t', o, m, r)
  {
    hide IsCopyName, LastAt, LiveDir, UsedPaths;
    forall key | key != Key(o.account, o.space, m.path) ensures OnlyDirsMade(t, t', o, Ancestors(m.path), key) {
      MadeTables(s, s', t, t', o, Ancestors(m.path), key);
    }
  }

  lemma CommitAnswered(s: Server, account: string, space: string, req: CommitRequest, clock: Clock)
    requires Inv(s) && Key(account, space, req.opId) !in s.ops && IsClean(req.manifest.path)
    requires (req.manifest.state.File? || req.manifest.state.Dir?)
             && NotDiverted(s, Key(account, space, req.manifest.path), req.manifest)
    requires Commit(s, account, space, req, clock).1.Ok?
    ensures var (s', r) := Commit(s, account, space, req, clock);
            Answered(s, s', RequestOrigin(account, space, req.device, req.root), req.manifest, r.value)
  {
    hide Inv, CheckCommit, CommitLocked, IsClean, CleanRel, Answered, Ready, NotDiverted;
    var m := req.manifest;
    var plan := CheckCommit(s, account, space, req).value;
    CheckCommitSound(s, account, space, req);
    CleanRelFixpoint(m.path);
    PlanIs(s, account, space, req);
    var s0 := GrantEmpty(s, account, m, plan);
    GrantEmptyInv(s, account, m, plan);
    GrantEmptyGrows(s, account, m, plan);
    ReadyStable(s, s0, account, m, plan);
    NotDivertedTables(s, s0, Key(account, space, m.path), m);
    LockedAnswered(s0, account, space, req, clock);
    var (s', r) := Commit(s, account, space, req, clock);
    AnsweredTables(s0, s', s, s', RequestOrigin(account, space, req.device, req.root), m, r.value);
  }

  lemma PlanIs(s: Server, account: string, space: string, req: CommitRequest)
    requires CheckCommit(s, account, space, req).Ok? && CleanRel(req.manifest.path) == Ok(req.manifest.path)
    requires req.manifest.state.File? || req.manifest.state.Dir?
    ensures CheckCommit(s, account, space, req).value == Plan(req.manifest.path, req.manifest.state)
  {
  }

  lemma NotDivertedTables(s: Server, t: Server, at: Key, m: Manifest)
    requires t.files == s.files
    ensures NotDiverted(t, at, m) == NotDiverted(s, at, m)
  {
  }

  // ---------------------------------------------------------------- an upload put beside

  /** What a diverted upload leaves: directories for missing parents, and the version at a path nobody used. */
  ghost predicate PutBeside(s: Server, s': Server, o: Origin, m: Manifest, r: CommitResponse) {
    var at, copy := Key(o.account, o.space, m.path), Key(o.account, o.space, r.conflictPath);
    (forall key | key != copy :: OnlyDirsMade(s, s', o, Ancestors(m.path), key))
    && SameKey(s, s', at) && (m.fileId != NoId ==> at in s.files && s.files[at].fileId == m.fileId)
    && r.conflictPath != m.path && r.conflictPath != "" && IsCopyName(r.conflictPath, m.path, o.device)
    && r.conflictPath !in UsedPaths(s.files)
    && Landed(s, s', o, m, copy, m.state) && r.version == s'.files[copy].current
  }

  lemma EntryPutBeside(s: Server, o: Origin, m: Manifest, clock: Clock)
    requires KeysMatch(s.files) && IsClean(m.path) && !NotDiverted(s, Key(o.account, o.space, m.path), m)
    requires CommitEntry(s, o, m, m.path, m.state, clock).1.Ok?
    ensures var (s', r) := CommitEntry(s, o, m, m.path, m.state, clock);
            PutBeside(s, s', o, m, r.value)
            && forall key | key != Key(o.account, o.space, r.value.conflictPath) :: SameKey(s, s', key)
  {
    hide Land, CopyKey, UsedPaths, IsClean, LiveDir, KeysMatch, SameKey, DirMade, IsCopyName, CommittedVersion;
    var at := Key(o.account, o.space, m.path);
    var copy := CopyKey(s, o, m.path, clock);
    CopyIsNamed(s, o, m.path, clock);
    FreshCopy(s, o, m.path, clock);
    CopyNotEmpty(s, o, m.path, clock);
    var s1 := NewEntry(s, copy);
    var (s', r) := CommitEntry(s, o, m, m.path, m.state, clock);
    LandLands(s1, o, m, copy, m.state, clock.now);
    LandedFromNew(s, s', o, m, copy, m.state);
    forall key | key != copy ensures SameKey(s, s', key) {
      NewEntryElsewhere(s, copy, key);
      LandElsewhere(s1, o, m, copy, m.state, clock.now, key);
      SameKeyTransitive(s, s1, s', key);
    }
  }

  lemma CopyNotEmpty(s: Server, o: Origin, path: string, clock: Clock)
    ensures CopyKey(s, o, path, clock).name != ""
  {
  }

  lemma LandedFromNew(s: Server, s': Server, o: Origin, m: Manifest, copy: Key, state: EntryState)
    requires copy !in s.files && Landed(NewEntry(s, copy), s', o, m, copy, state)
    ensures Landed(s, s', o, m, copy, state)
  {
    hide LiveDir, LastAt;
  }

  lemma PutBesideEarlier(s: Server, s1: Server, s': Server, o: Origin, m: Manifest, r: CommitResponse)
    requires PutBeside(s1, s', o, m, r) && SameKey(s, s1, Key(o.account, o.space, m.path))
    requires KeysMatch(s.files) && KeysMatch(s1.files) && s.files.Keys <= s1.files.Keys
    requires forall key | key != Key(o.account, o.space, r.conflictPath) ::
               OnlyDirsMade(s, s', o, Ancestors(m.path), key)
    ensures PutBeside(s, s', o, m, r)
  {
    hide OnlyDirsMade, LastAt, LiveDir, IsCopyName, UsedPaths, KeysMatch;
    var copy := Key(o.account, o.space, r.conflictPath);
    UsedStays(s, s1, r.conflictPath);
    if copy in s.files { UsedIs(s, copy); }
  }

  lemma PutBesideTables(s: Server, s': Server, t: Server, t': Server, o: Origin, m: Manifest, r: CommitResponse)
    requires t.files == s.files && t.log == s.log && t.nextId == s.nextId && t'.files == s'.files && t'.log == s'.log
    requires PutBeside(s, s', o, m, r)
    ensures PutBeside(t, t', o, m, r)
  {
    hide IsCopyName, LastAt, LiveDir, UsedPaths;
    forall key | key != Key(o.account, o.space, r.conflictPath)
      ensures OnlyDirsMade(t, t', o, Ancestors(m.path), key)
    {
      MadeTables(s, s', t, t', o, Ancestors(m.path), key);
    }
  }

  lemma MadeTables(s: Server, s': Server, t: Server, t': Server, o: Origin, dirs: seq<string>, key: Key)
    requires t.files == s.files && t.log == s.log && t.nextId == s.nextId && t'.files == s'.files && t'.log == s'.log
    requires OnlyDirsMade(s, s', o, dirs, key)
    ensures OnlyDirsMade(t, t', o, dirs, key)
  {
    hide IsCopyName, LastAt, LiveDir, UsedPaths;
    if !SameKey(t, t', key) {
      var i :| 0 <= i < |dirs| && DirMade(s, s', o, key, dirs[i]);
      assert DirMade(t, t', o, key, dirs[i]);
    }
  }

  lemma LockedPutBeside(s: Server, account: string, space: string, req: CommitRequest, clock: Clock)
    requires var m := req.manifest;
             Inv(s) && Ready(s, account, m, Plan(m.path, m.state)) && Key(account, space, req.opId) !in s.ops
             && !NotDiverted(s, Key(account, space, m.path), m)
    requires CommitLocked(s, account, space, req, Plan(req.manifest.path, req.manifest.state), clock).1.Ok?
    ensures var (s', r) := CommitLocked(s, account, space, req, Plan(req.manifest.path, req.manifest.state), clock);
            PutBeside(s, s', RequestOrigin(account, space, req.device, req.root), req.manifest, r.value)
  {
    hide Inv, IsClean, EnsureParents, Ancestors, CommitEntry, Grows, SameKey, OnlyDirsMade, Landed, LiveDir, AllClean,
         KeysMatch, IsCopyName, UsedPaths;
    var m := req.manifest;
    var o, plan, at := RequestOrigin(account, space, req.device, req.root), Plan(m.path, m.state),
                       Key(account, space, m.path);
    var s1 := AfterParents(s, account, space, req, plan, clock);
    AfterParentsInv(s, account, space, req, plan, clock);
    OwnPathSame(s, account, space, req, plan, clock);
    SameEntry(s, s1, at);
    InvKeysMatch(s);
    InvKeysMatch(s1);
    var (s2, r) := CommitEntry(s1, o, m, m.path, m.state, clock);
    EntryPutBeside(s1, o, m, clock);
    AncestorsAllClean(m.path);
    forall key | key != Key(account, space, r.value.conflictPath)
      ensures OnlyDirsMade(s, s2, o, Ancestors(m.path), key)
    {
      ParentsMade(s, o, Ancestors(m.path), m.modTime, clock, key);
      MadeThenSame(s, s1, s2, o, Ancestors(m.path), key);
    }
    KeptKeys(s.files, s1.files);
    PutBesideEarlier(s, s1, s2, o, m, r.value);
    var s' := CommitLocked(s, account, space, req, plan, clock).0;
    PutBesideTables(s, s2, s, s', o, m, r.value);
  }

  lemma KeptKeys(files: map<Key, FileEntry>, files': map<Key, FileEntry>)
    requires Kept(files, files')
    ensures files.Keys <= files'.Keys
  {
    forall k | k in files ensures k in files' { assert KeptEntry(files[k], files', k); }
  }

  /** An answered upload that is not based on the version at its path goes beside it. */
  lemma CommitPutBeside(s: Server, account: string, space: string, req: CommitRequest, clock: Clock)
    requires Inv(s) && Key(account, space, req.opId) !in s.ops && IsClean(req.manifest.path)
    requires (req.manifest.state.File? || req.manifest.state.Dir?)
             && !NotDiverted(s, Key(account, space, req.manifest.path), req.manifest)
    requires Commit(s, account, space, req, clock).1.Ok?
    ensures var (s', r) := Commit(s, account, space, req, clock);
            PutBeside(s, s', RequestOrigin(account, space, req.device, req.root), req.manifest, r.value)
  {
    hide Inv, CheckCommit, CommitLocked, IsClean, CleanRel, PutBeside, Ready, NotDiverted;
    var m := req.manifest;
    var plan := CheckCommit(s, account, space, req).value;
    CheckCommitSound(s, account, space, req);
    CleanRelFixpoint(m.path);
    PlanIs(s, account, space, req);
    var s0 := GrantEmpty(s, account, m, plan);
    GrantEmptyInv(s, account, m, plan);
    GrantEmptyGrows(s, account, m, plan);
    ReadyStable(s, s0, account, m, plan);
    NotDivertedTables(s0, s, Key(account, space, m.path), m);
    LockedPutBeside(s0, account, space, req, clock);
    var (s', r) := Commit(s, account, space, req, clock);
    PutBesideTables(s0, s', s, s', RequestOrigin(account, space, req.device, req.root), m, r.value);
  }

  // ---------------------------------------------------------------- an answered deletion

  /** What a deletion based on the current version leaves: its tombstone. */
  ghost predicate Buried(s: Server, s': Server, at: Key, r: CommitResponse) {
    (forall key | key != at :: SameKey(s, s', key))
    && r.status.StatusOk? && r.version.Some? && at in s'.files && s'.files[at].current == r.version
    && LastAt(s'.log, at) == r.version && r.version.value.state.Deleted? && at in s.files
    && r.version.value.fileId == s.files[at].fileId
  }

  lemma InstallSame(s: Server, at: Key, v: FileVersion, key: Key)
    requires at in s.files && KeyOf(v) == at && key != at
    ensures SameKey(s, Install(s, at, v), key)
  {
  }

  lemma InstallThere(s: Server, at: Key, v: FileVersion)
    requires at in s.files && KeyOf(v) == at
    ensures var s' := Install(s, at, v);
            at in s'.files && s'.files[at].current == Some(v) && LastAt(s'.log, at) == Some(v)
  {
  }

  lemma TombstoneIs(o: Origin, key: Key, e: FileEntry, base: Id, versionId: Id, now: int)
    requires key.account == o.account && key.space == o.space
    ensures var t := Tombstone(o, key, e, base, versionId, now);
            KeyOf(t) == key && t.state.Deleted? && t.fileId == e.fileId
  {
  }

  lemma DeleteBuries(s: Server, account: string, space: string, req: DeleteRequest, clock: Clock)
    requires var at := Key(account, space, req.path);
             IsClean(req.path) && HasVersion(s.files, at) && !s.files[at].current.value.state.Deleted?
             && req.base == s.files[at].current.value.versionId
    requires Key(account, space, req.opId) !in s.ops && Delete(s, account, space, req, clock).1.Ok?
    ensures var (s', r) := Delete(s, account, space, req, clock);
            Buried(s, s', Key(account, space, req.path), r.value)
  {
    hide Install, Tombstone, IsClean, CleanRel, SpaceActive, LastAt;
    CleanRelFixpoint(req.path);
    var o, at := RequestOrigin(account, space, req.device, req.root), Key(account, space, req.path);
    var t := Tombstone(o, at, s.files[at], req.base, Issued(s.nextId), clock.now);
    TombstoneIs(o, at, s.files[at], req.base, Issued(s.nextId), clock.now);
    InstallThere(s, at, t);
    var s1 := Install(s, at, t);
    var (s', r) := Delete(s, account, space, req, clock);
    assert s'.files == s1.files && s'.log == s1.log && r == Ok(LandResponse(s1, at, false));
    forall key | key != at ensures SameKey(s, s', key) { InstallSame(s, at, t, key); }
  }

  // ---------------------------------------------------------------- whose events these are

  /** The log grew by events of this origin. */
  ghost predicate OwnGrowth(s: Server, s': Server, o: Origin) {
    s.log <= s'.log
    && forall i | |s.log| <= i < |s'.log| ::
         var v := s'.log[i].version;
         v.account == o.account && v.space == o.space && v.device == o.device && v.root == o.root
  }

  lemma OwnGrowthOn(a: Server, b: Server, c: Server, o: Origin)
    requires OwnGrowth(a, b, o) && OwnGrowth(b, c, o)
    ensures OwnGrowth(a, c, o)
  {
  }

  lemma CommitExistingOwn(s: Server, o: Origin, m: Manifest, at: Key, state: EntryState, clock: Clock)
    requires at in s.files
    ensures OwnGrowth(s, CommitExisting(s, o, m, at, state, clock).0, o)
  {
    hide OutcomeOf, Land, CopyKey;
    var copy := CopyKey(s, o, at.name, clock);
    LandTables(s, o, m, at, state, clock.now);
    LandTables(NewEntry(s, copy), o, m, copy, state, clock.now);
  }

  lemma CommitEntryOwn(s: Server, o: Origin, m: Manifest, path: string, state: EntryState, clock: Clock)
    ensures OwnGrowth(s, CommitEntry(s, o, m, path, state, clock).0, o)
  {
    hide CommitExisting;
    var at := Key(o.account, o.space, path);
    CommitExistingOwn(EnsureEntry(s, at), o, m, at, state, clock);
  }

  lemma {:induction false} EnsureParentsOwn(s: Server, o: Origin, dirs: seq<string>, modTime: int, clock: Clock)
    ensures OwnGrowth(s, EnsureParents(s, o, dirs, modTime, clock), o)
    decreases |dirs|
  {
    hide CommitEntry, LiveDir;
    if dirs != [] {
      var s1 := CommitEntry(s, o, DirManifest(dirs[0], modTime), dirs[0], Dir, clock).0;
      CommitEntryOwn(s, o, DirManifest(dirs[0], modTime), dirs[0], Dir, clock);
      EnsureParentsOwn(s, o, dirs[1..], modTime, clock);
      EnsureParentsOwn(s1, o, dirs[1..], modTime, clock);
      OwnGrowthOn(s, s1, EnsureParents(s1, o, dirs[1..], modTime, clock), o);
    }
  }

  /** All events of a commit, implicit parents included, are the requester's own. */
  lemma CommitOwn(s: Server, account: string, space: string, req: CommitRequest, clock: Clock)
    ensures OwnGrowth(s, Commit(s, account, space, req, clock).0, RequestOrigin(account, space, req.device, req.root))
  {
    hide CheckCommit, EnsureParents, CommitEntry, Ancestors;
    var o := RequestOrigin(account, space, req.device, req.root);
    var checked := CheckCommit(s, account, space, req);
    if checked.Ok? {
      var s0 := GrantEmpty(s, account, req.manifest, checked.value);
      var dirs := Ancestors(checked.value.path);
      var s1 := EnsureParents(s0, o, dirs, req.manifest.modTime, clock);
      EnsureParentsOwn(s0, o, dirs, req.manifest.modTime, clock);
      CommitEntryOwn(s1, o, req.manifest, checked.value.path, checked.value.state, clock);
      OwnGrowthOn(s0, s1, CommitEntry(s1, o, req.manifest, checked.value.path, checked.value.state, clock).0, o);
    }
  }

  lemma DeleteOwn(s: Server, account: string, space: string, req: DeleteRequest, clock: Clock)
    ensures OwnGrowth(s, Delete(s, account, space, req, clock).0, RequestOrigin(account, space, req.device, req.root))
  {
    hide CleanRel, SpaceActive, Tombstone, Install;
    var o := RequestOrigin(account, space, req.device, req.root);
    if CleanRel(req.path).Ok? {
      var key := Key(account, space, CleanRel(req.path).value);
      if key in s.files {
        InstallOwn(s, o, key, s.files[key], req.base, clock.now);
      }
    }
  }

  lemma InstallOwn(s: Server, o: Origin, key: Key, e: FileEntry, base: Id, now: int)
    requires key in s.files
    ensures OwnGrowth(s, Install(s, key, Tombstone(o, key, e, base, Issued(s.nextId), now)), o)
  {
  }
}
