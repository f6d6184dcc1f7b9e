/** Commit keeps the invariant and loses no update. */
module StoreCommit {
  import opened Model
  import opened Paths
  import opened ConflictNames
  import opened StoreSpec
  import opened StoreInvariant
  import opened StoreGrowth

  // ---------------------------------------------------------------- verified manifests

  /** What `verifyManifest` and the checks before the lock establish about a request. */
  ghost predicate Ready(s: Server, account: string, m: Manifest, plan: Plan) {
    IsClean(plan.path)
    && (plan.state.File? || plan.state.Dir?)
    && (plan.state.File? ==>
          Joinable(s.chunks, m.chunks, m.hash, m.size)
          && forall i | 0 <= i < |m.chunks| :: (account, m.chunks[i].hash) in s.grants)
  }

  lemma {:induction false} VerifyFromSound(s: Server, account: string, m: Manifest, i: nat, data: Bytes)
    requires i <= |m.chunks| && VerifyFrom(s, account, m, i, data).Ok?
    requires data == Assemble(s.chunks, m.chunks[..i])
    requires forall j | 0 <= j < i :: HasAccountChunk(s, account, m.chunks[j].hash)
                                      && |s.chunks[m.chunks[j].hash]| == m.chunks[j].size
    ensures Joinable(s.chunks, m.chunks, m.hash, m.size)
    ensures forall j | 0 <= j < |m.chunks| :: m.chunks[j].index == j || j < i
    ensures forall j | 0 <= j < |m.chunks| :: (account, m.chunks[j].hash) in s.grants
    decreases |m.chunks| - i
  {
    if i == |m.chunks| {
      assert m.chunks[..i] == m.chunks;
    } else {
      assert m.chunks[..i + 1][..i] == m.chunks[..i];
      VerifyFromSound(s, account, m, i + 1, data + s.chunks[m.chunks[i].hash]);
    }
  }

  lemma CheckCommitSound(s: Server, account: string, space: string, req: CommitRequest)
    requires CheckCommit(s, account, space, req).Ok?
    ensures var plan := CheckCommit(s, account, space, req).value;
            Ready(s, account, req.manifest, plan)
            && CleanRel(req.manifest.path) == Ok(plan.path)
            && (plan.state.Dir? ==> req.manifest.hash == "" && req.manifest.size == 0 && req.manifest.chunks == [])
  {
    CleanRelCharacterized(req.manifest.path);
    var m := req.manifest;
    if (m.state.Unset? || m.state.File?) && |m.chunks| > 0 {
      VerifyFromSound(s, account, m, 0, []);
    }
  }

  /** Whatever happens between the check and the lock, a request that was ready stays ready. */
  lemma ReadyStable(s: Server, s': Server, account: string, m: Manifest, plan: Plan)
    requires Ready(s, account, m, plan) && Grows(s, s')
    ensures Ready(s', account, m, plan)
  {
    if plan.state.File? { AssembleStable(s.chunks, s'.chunks, m.chunks); }
  }

  lemma MoreGrants(versions: map<Id, seq<FileVersion>>, chunks: map<string, Bytes>, grants: set<(string, string)>,
                   more: set<(string, string)>)
    requires ContentOk(versions, chunks, grants)
    ensures ContentOk(versions, chunks, grants + more)
  {
  }

  lemma ReplaceGrants(s: Server, refs: map<string, nat>, grants: set<(string, string)>)
    requires Inv(s) && ContentOk(s.versions, s.chunks, grants)
    ensures Inv(s.(refs := refs, grants := grants))
  {
  }

  lemma GrantEmptyInv(s: Server, account: string, m: Manifest, plan: Plan)
    requires Inv(s)
    ensures Inv(GrantEmpty(s, account, m, plan))
  {
    MoreGrants(s.versions, s.chunks, s.grants, {(account, m.hash)});
    ReplaceGrants(s, s.refs, s.grants + {(account, m.hash)});
  }

  // ---------------------------------------------------------------- landing a version

  lemma CountChunksInv(s: Server, v: FileVersion)
    requires Inv(s)
    ensures Inv(CountChunks(s, v))
  {
  }

  /** `Land` in the situations `commitEntryLocked` reaches it. */
  ghost predicate MayLand(s: Server, o: Origin, m: Manifest, key: Key, state: EntryState) {
    key in s.files && key.account == o.account && key.space == o.space
    && Ready(s, o.account, m, Plan(key.name, state))
    && (s.files[key].current.Some? ==> m.base == s.files[key].current.value.versionId)
  }

  lemma LandInv(s: Server, o: Origin, m: Manifest, key: Key, state: EntryState, now: int)
    requires Inv(s) && MayLand(s, o, m, key, state)
    ensures var s' := Land(s, o, m, key, state, now);
            Inv(s') && s'.files[key].current.Some?
            && InHistory(s'.versions, s'.files[key].current.value)
  {
    var v := CommittedVersion(o, m, key, s.files[key].fileId, Issued(s.nextId), state, now);
    InstallInv(s, key, v);
    CountChunksInv(Install(s, key, v), v);
  }

  lemma FreshCopy(s: Server, o: Origin, path: string, clock: Clock)
    requires KeysMatch(s.files) && IsClean(path)
    ensures var copy := CopyKey(s, o, path, clock);
            copy !in s.files && IsClean(copy.name) && forall k | k in s.files :: k.name != copy.name
  {
    var copy := CopyKey(s, o, path, clock);
    ConflictPathIsSibling(UsedPaths(s.files), path, o.device, clock.stamp);
    forall k | k in s.files ensures k.name != copy.name {
      assert s.files[k].path in UsedPaths(s.files);
    }
  }

  /** Entries are filed under their own path. */
  ghost predicate KeysMatch(files: map<Key, FileEntry>) {
    forall k | k in files :: k == Key(files[k].account, files[k].space, files[k].path)
  }

  lemma InvKeysMatch(s: Server)
    requires Inv(s)
    ensures KeysMatch(s.files)
  {
  }

  lemma EnsureEntryInv(s: Server, key: Key)
    requires Inv(s) && IsClean(key.name)
    ensures Inv(EnsureEntry(s, key))
  {
    if key !in s.files { NewEntryInv(s, key); }
  }

  /** An answer a commit gives carries a stored version of its own account and space. */
  ghost predicate Answers(s: Server, o: Origin, r: Result<CommitResponse>) {
    r.Ok? ==> r.value.status.StatusOk? && r.value.version.Some?
              && InHistory(s.versions, r.value.version.value)
              && r.value.version.value.account == o.account && r.value.version.value.space == o.space
  }

  lemma LandAtInv(s: Server, o: Origin, m: Manifest, key: Key, state: EntryState, now: int, conflict: bool)
    requires Inv(s) && MayLand(s, o, m, key, state)
    ensures var (s', r) := LandAt(s, o, m, key, state, now, conflict);
            Inv(s') && Answers(s', o, r)
  {
    LandInv(s, o, m, key, state, now);
  }

  lemma DivertInv(s: Server, o: Origin, m: Manifest, path: string, state: EntryState, clock: Clock)
    requires Inv(s) && Ready(s, o.account, m, Plan(path, state))
    ensures var copy := CopyKey(s, o, path, clock);
            var (s', r) := LandAt(NewEntry(s, copy), o, m, copy, state, clock.now, true);
            Inv(s') && Answers(s', o, r)
  {
    hide Inv, Joinable, IsClean, KeysMatch, Land, Grows;
    var copy := CopyKey(s, o, path, clock);
    InvKeysMatch(s);
    FreshCopy(s, o, path, clock);
    var s1 := NewEntry(s, copy);
    NewEntryInv(s, copy);
    EnsureEntryGrows(s, copy);
    ReadyStable(s, s1, o.account, m, Plan(path, state));
    LandAtInv(s1, o, m, copy, state, clock.now, true);
  }

  lemma UnchangedAnswers(s: Server, o: Origin, key: Key)
    requires Inv(s) && key in s.files && s.files[key].current.Some?
    requires key.account == o.account && key.space == o.space
    ensures Answers(s, o, Ok(LandResponse(s, key, false)))
  {
  }

  lemma CommitExistingInv(s: Server, o: Origin, m: Manifest, path: string, state: EntryState, clock: Clock)
    requires Inv(s) && Ready(s, o.account, m, Plan(path, state)) && Key(o.account, o.space, path) in s.files
    ensures var (s', r) := CommitExisting(s, o, m, Key(o.account, o.space, path), state, clock);
            Inv(s') && Answers(s', o, r)
  {
    var key := Key(o.account, o.space, path);
    match OutcomeOf(s.files[key], m, state)
    case Refused =>
    case Unchanged => UnchangedAnswers(s, o, key);
    case Diverted => DivertInv(s, o, m, path, state, clock);
    case Appended => LandAtInv(s, o, m, key, state, clock.now, false);
  }

  lemma CommitEntryInv(s: Server, o: Origin, m: Manifest, path: string, state: EntryState, clock: Clock)
    requires Inv(s) && Ready(s, o.account, m, Plan(path, state))
    ensures var (s', r) := CommitEntry(s, o, m, path, state, clock);
            Inv(s') && Answers(s', o, r)
  {
    hide Inv, Joinable, IsClean, Grows, CommitExisting, Answers;
    var key := Key(o.account, o.space, path);
    var s1 := EnsureEntry(s, key);
    EnsureEntryInv(s, key);
    EnsureEntryGrows(s, key);
    ReadyStable(s, s1, o.account, m, Plan(path, state));
    CommitExistingInv(s1, o, m, path, state, clock);
  }

  // ---------------------------------------------------------------- no lost update

  /** The entry stays, with its file id, and stays as it is if it has a version. */
  ghost predicate KeptEntry(e: FileEntry, files': map<Key, FileEntry>, k: Key) {
    k in files' && files'[k].fileId == e.fileId && (e.current.Some? ==> files'[k] == e)
  }

  ghost predicate KeptBut(files: map<Key, FileEntry>, files': map<Key, FileEntry>, but: Key) {
    forall k | k in files && k != but :: KeptEntry(files[k], files', k)
  }

  ghost predicate Kept(files: map<Key, FileEntry>, files': map<Key, FileEntry>) {
    forall k | k in files :: KeptEntry(files[k], files', k)
  }

  lemma KeptTransitive(a: map<Key, FileEntry>, b: map<Key, FileEntry>, c: map<Key, FileEntry>)
    requires Kept(a, b) && Kept(b, c)
    ensures Kept(a, c)
  {
  }

  lemma EnsureEntryKeeps(s: Server, key: Key)
    ensures Kept(s.files, EnsureEntry(s, key).files)
  {
  }

  /** What landing a version does to the tables. */
  lemma LandTables(s: Server, o: Origin, m: Manifest, key: Key, state: EntryState, now: int)
    requires key in s.files
    ensures var s' := Land(s, o, m, key, state, now);
            var v := CommittedVersion(o, m, key, s.files[key].fileId, Issued(s.nextId), state, now);
            s'.files == s.files[key := WithCurrent(s.files[key], v)]
            && s'.versions == s.versions[v.fileId := History(s.versions, v.fileId) + [v]]
            && s'.log == s.log + [Event(s.lastSeq + 1, v)] && s'.lastSeq == s.lastSeq + 1
  {
  }

  lemma CommitExistingKeeps(s: Server, o: Origin, m: Manifest, key: Key, state: EntryState, clock: Clock)
    requires key in s.files && KeysMatch(s.files) && IsClean(key.name)
    ensures var s' := CommitExisting(s, o, m, key, state, clock).0;
            KeptBut(s.files, s'.files, key)
            && (!OutcomeOf(s.files[key], m, state).Appended? ==> KeptEntry(s.files[key], s'.files, key))
  {
    hide Land, OutcomeOf, CopyKey, WithCurrent, KeysMatch, IsClean, CommittedVersion;
    match OutcomeOf(s.files[key], m, state)
    case Refused =>
    case Unchanged =>
    case Diverted =>
      var copy := CopyKey(s, o, key.name, clock);
      FreshCopy(s, o, key.name, clock);
      LandTables(NewEntry(s, copy), o, m, copy, state, clock.now);
    case Appended =>
      LandTables(s, o, m, key, state, clock.now);
  }

  lemma CommitEntryKeeps(s: Server, o: Origin, m: Manifest, path: string, state: EntryState, clock: Clock)
    requires KeysMatch(s.files) && IsClean(path)
    ensures var key := Key(o.account, o.space, path);
            var s' := CommitEntry(s, o, m, path, state, clock).0;
            KeptBut(s.files, s'.files, key)
            && (key in s.files && !OutcomeOf(s.files[key], m, state).Appended? ==>
                  KeptEntry(s.files[key], s'.files, key))
            && (key in s.files ==> key in s'.files && s'.files[key].fileId == s.files[key].fileId)
  {
    hide CommitExisting, OutcomeOf, IsClean;
    var key := Key(o.account, o.space, path);
    var s1 := EnsureEntry(s, key);
    CommitExistingKeeps(s1, o, m, key, state, clock);
    CommitExistingFileId(s1, o, m, key, state, clock);
    var s' := CommitExisting(s1, o, m, key, state, clock).0;
    forall k | k in s.files && k != key ensures KeptEntry(s.files[k], s'.files, k) {
      assert KeptEntry(s1.files[k], s'.files, k);
    }
  }

  lemma CommitExistingFileId(s: Server, o: Origin, m: Manifest, key: Key, state: EntryState, clock: Clock)
    requires key in s.files && KeysMatch(s.files) && IsClean(key.name)
    ensures var s' := CommitExisting(s, o, m, key, state, clock).0;
            key in s'.files && s'.files[key].fileId == s.files[key].fileId
  {
    hide Land, OutcomeOf, CopyKey, KeysMatch, IsClean, CommittedVersion, History, LandResponse;
    match OutcomeOf(s.files[key], m, state)
    case Refused =>
    case Unchanged =>
    case Diverted =>
      var copy := CopyKey(s, o, key.name, clock);
      FreshCopy(s, o, key.name, clock);
      LandTables(NewEntry(s, copy), o, m, copy, state, clock.now);
    case Appended =>
      LandTables(s, o, m, key, state, clock.now);
  }

  /** A parent is committed without a base version, so it never replaces a version that exists. */
  lemma CommitParentKeeps(s: Server, o: Origin, dir: string, modTime: int, clock: Clock)
    requires Inv(s) && IsClean(dir)
    ensures Kept(s.files, CommitEntry(s, o, DirManifest(dir, modTime), dir, Dir, clock).0.files)
  {
    hide CommitEntry, IsClean, HistoriesOk, UniqueVersionIds, LogOk, WindowOk, ReplayOk, ContentOk, OpsOk;
    var key := Key(o.account, o.space, dir);
    InvKeysMatch(s);
    CurrentIdsIssued(s);
    CommitEntryKeeps(s, o, DirManifest(dir, modTime), dir, Dir, clock);
    var s' := CommitEntry(s, o, DirManifest(dir, modTime), dir, Dir, clock).0;
    forall k | k in s.files ensures KeptEntry(s.files[k], s'.files, k) {
      if k == key && s.files[key].current.Some? {
        assert s.files[key].current.value.versionId.Issued?;
      }
    }
  }

  lemma CurrentIdsIssued(s: Server)
    requires Inv(s)
    ensures forall k | k in s.files && s.files[k].current.Some? :: s.files[k].current.value.versionId.Issued?
  {
  }

  ghost predicate AllClean(dirs: seq<string>) { forall i | 0 <= i < |dirs| :: IsClean(dirs[i]) }

  /** Making the missing ancestors keeps the invariant and every existing version. */
  lemma {:induction false} EnsureParentsInv(s: Server, o: Origin, dirs: seq<string>, modTime: int, clock: Clock)
    requires Inv(s) && AllClean(dirs)
    ensures var s' := EnsureParents(s, o, dirs, modTime, clock);
            Inv(s') && Kept(s.files, s'.files)
    decreases |dirs|
  {
    hide CommitEntry, IsClean, Inv;
    if dirs != [] {
      assert IsClean(dirs[0]) && AllClean(dirs[1..]) by {
        assert forall i | 0 <= i < |dirs[1..]| :: dirs[1..][i] == dirs[i + 1];
      }
      if IsLiveDir(s.files, Key(o.account, o.space, dirs[0])) {
        EnsureParentsInv(s, o, dirs[1..], modTime, clock);
      } else {
        var m := DirManifest(dirs[0], modTime);
        var s1 := CommitEntry(s, o, m, dirs[0], Dir, clock).0;
        CommitEntryInv(s, o, m, dirs[0], Dir, clock);
        CommitParentKeeps(s, o, dirs[0], modTime, clock);
        EnsureParentsInv(s1, o, dirs[1..], modTime, clock);
        KeptTransitive(s.files, s1.files, EnsureParents(s, o, dirs, modTime, clock).files);
      }
    }
  }

  lemma AncestorsAllClean(path: string)
    requires IsClean(path)
    ensures AllClean(Ancestors(path))
  {
    forall i | 0 <= i < |Ancestors(path)| ensures IsClean(Ancestors(path)[i]) { AncestorsClean(path, i); }
  }

  lemma RecordInv(s: Server, op: Key, r: CommitResponse)
    requires Inv(s) && ResponseOk(s.versions, op, r)
    ensures Inv(s.(ops := s.ops[op := r]))
  {
  }

  /** The locked part of a commit keeps the invariant for every request that once was ready. */
  lemma CommitLockedInv(s: Server, account: string, space: string, req: CommitRequest, plan: Plan, clock: Clock)
    requires Inv(s) && Ready(s, account, req.manifest, plan)
    ensures Inv(CommitLocked(s, account, space, req, plan, clock).0)
  {
    hide EnsureParents, CommitEntry, Inv, Ancestors, IsClean;
    var o := RequestOrigin(account, space, req.device, req.root);
    var s1 := EnsureParents(s, o, Ancestors(plan.path), req.manifest.modTime, clock);
    var opKey := Key(account, space, req.opId);
    AncestorsAllClean(plan.path);
    EnsureParentsInv(s, o, Ancestors(plan.path), req.manifest.modTime, clock);
    EnsureParentsGrows(s, o, Ancestors(plan.path), req.manifest.modTime, clock);
    if opKey !in s1.ops {
      ReadyStable(s, s1, account, req.manifest, plan);
      CommitEntryInv(s1, o, req.manifest, plan.path, plan.state, clock);
      var (s2, r) := CommitEntry(s1, o, req.manifest, plan.path, plan.state, clock);
      CommitEntrySides(s1, o, req.manifest, plan.path, plan.state, clock);
      if r.Ok? { RecordInv(s2, opKey, r.value); }
    }
  }

  lemma CommitInv(s: Server, account: string, space: string, req: CommitRequest, clock: Clock)
    requires Inv(s)
    ensures Inv(Commit(s, account, space, req, clock).0)
  {
    hide CheckCommit, CommitLocked, GrantEmpty, Inv;
    match CheckCommit(s, account, space, req)
    case Err(_) =>
    case Ok(plan) =>
      CheckCommitSound(s, account, space, req);
      GrantEmptyInv(s, account, req.manifest, plan);
      GrantEmptyGrows(s, account, req.manifest, plan);
      var s1 := GrantEmpty(s, account, req.manifest, plan);
      ReadyStable(s, s1, account, req.manifest, plan);
      CommitLockedInv(s1, account, space, req, plan, clock);
  }
}
