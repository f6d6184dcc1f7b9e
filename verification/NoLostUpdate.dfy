/** What a commit may and may not change: the optimistic concurrency control of `Commit`. */
module NoLostUpdate {
  import opened Model
  import opened Paths
  import opened StoreSpec
  import opened StoreInvariant
  import opened StoreGrowth
  import opened StoreCommit

  /** The version holds what the manifest says. */
  ghost predicate Carries(v: FileVersion, m: Manifest, state: EntryState) {
    v.state == state && v.base == m.base && v.size == m.size && v.hash == m.hash && v.chunks == m.chunks
    && v.modTime == m.modTime
  }

  /** The upload became the newest version of the entry at `key`. */
  ghost predicate AppendedAt(s: Server, s': Server, key: Key, m: Manifest, state: EntryState,
                             r: Result<CommitResponse>) {
    key in s.files && key in s'.files
    && s'.files[key].fileId == s.files[key].fileId
    && s'.files[key].current.Some?
    && var v := s'.files[key].current.value;
       Carries(v, m, state) && v.fileId == s.files[key].fileId
       && v.fileId in s'.versions && s'.versions[v.fileId] == History(s.versions, v.fileId) + [v]
       && r.Ok? && !r.value.conflict && r.value.version == Some(v)
  }

  /** The upload became the only version of a new entry at a path no entry used. */
  ghost predicate DivertedBeside(s: Server, s': Server, key: Key, m: Manifest, state: EntryState,
                                 r: Result<CommitResponse>) {
    r.Ok? && r.value.conflict && r.value.version.Some?
    && (forall k | k in s.files :: s.files[k].path != r.value.conflictPath)
    && var copy := Key(key.account, key.space, r.value.conflictPath);
       var v := r.value.version.value;
       copy in s'.files && s'.files[copy].current == Some(v) && Carries(v, m, state)
       && v.fileId !in s.versions && v.fileId in s'.versions && s'.versions[v.fileId] == [v]
       && Split(copy.name)[..|Split(copy.name)| - 1] == Split(key.name)[..|Split(key.name)| - 1]
  }

  lemma LandAppends(s: Server, o: Origin, m: Manifest, key: Key, state: EntryState, now: int)
    requires key in s.files
    ensures var (s', r) := LandAt(s, o, m, key, state, now, false);
            AppendedAt(s, s', key, m, state, r)
  {
  }

  lemma NextIdUnused(s: Server)
    requires HistoriesOk(s.versions, s.nextId)
    ensures Issued(s.nextId) !in s.versions
  {
  }

  lemma DivertDiverts(s: Server, o: Origin, m: Manifest, path: string, state: EntryState, clock: Clock)
    requires Inv(s) && IsClean(path)
    ensures var copy := CopyKey(s, o, path, clock);
            var (s', r) := LandAt(NewEntry(s, copy), o, m, copy, state, clock.now, true);
            DivertedBeside(s, s', Key(o.account, o.space, path), m, state, r)
  {
    hide Land, HistoriesOk, UniqueVersionIds, FilesOk, LogOk, WindowOk, ReplayOk, ContentOk, OpsOk, IsClean;
    var copy := CopyKey(s, o, path, clock);
    InvKeysMatch(s);
    FreshCopy(s, o, path, clock);
    NextIdUnused(s);
    ConflictNames.ConflictPathIsSibling(UsedPaths(s.files), path, o.device, clock.stamp);
    LandTables(NewEntry(s, copy), o, m, copy, state, clock.now);
  }

  /** How a commit at an existing entry ends, by the outcome its entry determines. */
  lemma CommitExistingResult(s: Server, o: Origin, m: Manifest, key: Key, state: EntryState, clock: Clock)
    requires Inv(s) && key in s.files && key.account == o.account && key.space == o.space && IsClean(key.name)
    ensures var (s', r) := CommitExisting(s, o, m, key, state, clock);
            match OutcomeOf(s.files[key], m, state)
            case Refused => r.Err? && s' == s
            case Unchanged => s' == s && r == Ok(LandResponse(s, key, false))
            case Diverted => DivertedBeside(s, s', key, m, state, r)
            case Appended => AppendedAt(s, s', key, m, state, r)
  {
    hide Inv, IsClean, OutcomeOf, Land, CopyKey, DivertedBeside, AppendedAt;
    match OutcomeOf(s.files[key], m, state)
    case Refused =>
    case Unchanged =>
    case Diverted => DivertDiverts(s, o, m, key.name, state, clock);
    case Appended => LandAppends(s, o, m, key, state, clock.now);
  }

  // ---------------------------------------------------------------- the main statements

  /** In whatever account and space it lies, an entry that has a version keeps that version, unless it is the
      entry at the commit's own path and the commit was based on exactly that version. */
  lemma CommitLosesNothing(s: Server, account: string, space: string, req: CommitRequest, plan: Plan, clock: Clock)
    requires Inv(s) && Ready(s, account, req.manifest, plan)
    ensures var s' := CommitLocked(s, account, space, req, plan, clock).0;
            forall k | k in s.files ::
              k in s'.files && s'.files[k].fileId == s.files[k].fileId
              && (s.files[k].current.Some? && s'.files[k] != s.files[k] ==>
                    k == Key(account, space, plan.path)
                    && req.manifest.base == s.files[k].current.value.versionId)
  {
    hide Inv, IsClean, Ancestors, EnsureParents, CommitEntry;
    var o := RequestOrigin(account, space, req.device, req.root);
    var s1 := EnsureParents(s, o, Ancestors(plan.path), req.manifest.modTime, clock);
    AncestorsAllClean(plan.path);
    EnsureParentsInv(s, o, Ancestors(plan.path), req.manifest.modTime, clock);
    InvKeysMatch(s1);
    CommitEntryKeeps(s1, o, req.manifest, plan.path, plan.state, clock);
    var s' := CommitLocked(s, account, space, req, plan, clock).0;
    forall k | k in s.files
      ensures k in s'.files && s'.files[k].fileId == s.files[k].fileId
              && (s.files[k].current.Some? && s'.files[k] != s.files[k] ==>
                    k == Key(account, space, plan.path) && req.manifest.base == s.files[k].current.value.versionId)
    {
      assert KeptEntry(s.files[k], s1.files, k);
      if k != Key(account, space, plan.path) {
        assert Key(account, space, req.opId) !in s1.ops ==> KeptEntry(s1.files[k], s'.files, k);
      }
    }
  }

  /** An entry that keeps its current version keeps its whole history. */
  lemma HistoryKept(s: Server, s': Server, key: Key)
    requires Inv(s) && Inv(s') && Grows(s, s')
    requires key in s.files && s.files[key].current.Some? && key in s'.files && s'.files[key] == s.files[key]
    ensures var id := s.files[key].fileId;
            id in s.versions && id in s'.versions && s'.versions[id] == s.versions[id]
            && |s.versions[id]| > 0 && s.versions[id][|s.versions[id]| - 1] == s.files[key].current.value
  {
  }

  /** A client record names a stored version at the record's path. */
  ghost predicate Names(versions: map<Id, seq<FileVersion>>, key: Key, fileId: Id, versionId: Id) {
    fileId in versions
    && exists i :: 0 <= i < |versions[fileId]| && versions[fileId][i].versionId == versionId
                   && KeyOf(versions[fileId][i]) == key
  }

  lemma NamedEntryHasVersion(s: Server, key: Key, fileId: Id, versionId: Id)
    requires Inv(s) && Names(s.versions, key, fileId, versionId)
    ensures fileId != NoId && fileId in s.versions
    ensures key in s.files && s.files[key].fileId == fileId ==> s.files[key].current.Some?
  {
  }

  // ---------------------------------------------------------------- ids of new entries

  /** Every entry has the file id it had, or one drawn since. */
  ghost predicate FreshEntries(s: Server, s': Server) {
    s.nextId <= s'.nextId
    && forall k | k in s'.files ::
         (k in s.files && s'.files[k].fileId == s.files[k].fileId)
         || (s'.files[k].fileId.Issued? && s'.files[k].fileId.n >= s.nextId)
  }

  lemma CommitExistingFresh(s: Server, o: Origin, m: Manifest, key: Key, state: EntryState, clock: Clock)
    requires key in s.files
    ensures FreshEntries(s, CommitExisting(s, o, m, key, state, clock).0)
  {
    hide OutcomeOf, CopyKey, CommittedVersion, Land;
    match OutcomeOf(s.files[key], m, state)
    case Refused =>
    case Unchanged =>
    case Diverted =>
      var copy := CopyKey(s, o, key.name, clock);
      LandTables(NewEntry(s, copy), o, m, copy, state, clock.now);
      LandGrows(NewEntry(s, copy), o, m, copy, state, clock.now);
    case Appended =>
      LandTables(s, o, m, key, state, clock.now);
      LandGrows(s, o, m, key, state, clock.now);
  }

  lemma CommitEntryFresh(s: Server, o: Origin, m: Manifest, path: string, state: EntryState, clock: Clock)
    ensures FreshEntries(s, CommitEntry(s, o, m, path, state, clock).0)
  {
    hide CommitExisting;
    var key := Key(o.account, o.space, path);
    CommitExistingFresh(EnsureEntry(s, key), o, m, key, state, clock);
  }

  lemma {:induction false} EnsureParentsFresh(s: Server, o: Origin, dirs: seq<string>, modTime: int, clock: Clock)
    ensures FreshEntries(s, EnsureParents(s, o, dirs, modTime, clock))
    decreases |dirs|
  {
    hide CommitEntry;
    if dirs != [] {
      if IsLiveDir(s.files, Key(o.account, o.space, dirs[0])) {
        EnsureParentsFresh(s, o, dirs[1..], modTime, clock);
      } else {
        var m := DirManifest(dirs[0], modTime);
        var s1 := CommitEntry(s, o, m, dirs[0], Dir, clock).0;
        CommitEntryFresh(s, o, m, dirs[0], Dir, clock);
        EnsureParentsFresh(s1, o, dirs[1..], modTime, clock);
        FreshTransitive(s, s1, EnsureParents(s, o, dirs, modTime, clock));
      }
    }
  }

  lemma FreshTransitive(a: Server, b: Server, c: Server)
    requires FreshEntries(a, b) && FreshEntries(b, c)
    ensures FreshEntries(a, c)
  {
  }

  // ---------------------------------------------------------------- commits made from records

  /** A file id that already has a history is not the id of an entry made since. */
  lemma NotAFreshEntry(s: Server, s1: Server, key: Key, id: Id)
    requires HistoriesOk(s.versions, s.nextId) && FreshEntries(s, s1) && Kept(s.files, s1.files)
    requires id in s.versions
    requires key !in s.files || s.files[key].fileId != id
    ensures EnsureEntry(s1, key).files[key].fileId != id
  {
  }

  /** The state in which the entry itself is looked up, all parents having been made. */
  function AfterParents(s: Server, account: string, space: string, req: CommitRequest, plan: Plan,
                        clock: Clock): Server {
    EnsureParents(s, RequestOrigin(account, space, req.device, req.root), Ancestors(plan.path),
                  req.manifest.modTime, clock)
  }

  lemma AfterParentsInv(s: Server, account: string, space: string, req: CommitRequest, plan: Plan, clock: Clock)
    requires Inv(s) && IsClean(plan.path)
    ensures var s1 := AfterParents(s, account, space, req, plan, clock);
            Inv(s1) && Kept(s.files, s1.files) && FreshEntries(s, s1) && Grows(s, s1) && SameSides(s, s1)
  {
    hide Inv, Kept, FreshEntries, Grows, SameSides, EnsureParents, Ancestors, IsClean;
    var o := RequestOrigin(account, space, req.device, req.root);
    AncestorsAllClean(plan.path);
    EnsureParentsInv(s, o, Ancestors(plan.path), req.manifest.modTime, clock);
    EnsureParentsFresh(s, o, Ancestors(plan.path), req.manifest.modTime, clock);
    EnsureParentsGrows(s, o, Ancestors(plan.path), req.manifest.modTime, clock);
    EnsureParentsSides(s, o, Ancestors(plan.path), req.manifest.modTime, clock);
  }

  /** The outcome of a request, from the entry at its path before anything is done. */
  function OutcomeBefore(s: Server, key: Key, m: Manifest, state: EntryState): Outcome {
    if key !in s.files then Refused else OutcomeOf(s.files[key], m, state)
  }

  /** What each outcome leaves behind, for a record whose file has history `h`. */
  ghost predicate Ends(outcome: Outcome, s: Server, s': Server, key: Key, m: Manifest, state: EntryState,
                       r: Result<CommitResponse>) {
    match outcome
    case Refused =>
      r.Err? && Kept(s.files, s'.files)
    case Unchanged =>
      key in s.files && r.Ok? && !r.value.conflict && r.value.version == s.files[key].current
      && Kept(s.files, s'.files)
    case Diverted =>
      DivertedBeside(s, s', key, m, state, r)
      && key in s.files && key in s'.files && s'.files[key] == s.files[key]
      && History(s'.versions, m.fileId) == History(s.versions, m.fileId)
    case Appended =>
      var h := History(s.versions, m.fileId);
      |h| > 0 && h[|h| - 1].versionId == m.base && AppendedAt(s, s', key, m, state, r)
      && key in s.files && s.files[key].fileId == m.fileId
  }

  /** The case of an entry that has another file id than the record. */
  lemma CommitOtherId(s: Server, s1: Server, o: Origin, m: Manifest, plan: Plan, clock: Clock)
    requires Inv(s) && Inv(s1) && Kept(s.files, s1.files) && FreshEntries(s, s1) && IsClean(plan.path)
    requires m.fileId in s.versions && m.fileId != NoId
    requires var key := Key(o.account, o.space, plan.path); key !in s.files || s.files[key].fileId != m.fileId
    ensures var key := Key(o.account, o.space, plan.path);
            var (s', r) := CommitEntry(s1, o, m, plan.path, plan.state, clock);
            OutcomeBefore(s, key, m, plan.state).Refused? && Ends(Refused, s, s', key, m, plan.state, r)
  {
    hide UniqueVersionIds, FilesOk, LogOk, WindowOk, ReplayOk, ContentOk, OpsOk, ChunksOk, FreshEntries, IsClean,
         HistoryOk;
    var key := Key(o.account, o.space, plan.path);
    NotAFreshEntry(s, s1, key, m.fileId);
    EnsureEntryKeeps(s1, key);
    KeptTransitive(s.files, s1.files, EnsureEntry(s1, key).files);
  }

  /** The case of the record's own entry. */
  lemma CommitSameId(s: Server, s1: Server, o: Origin, m: Manifest, plan: Plan, clock: Clock)
    requires Inv(s) && Inv(s1) && Kept(s.files, s1.files) && Grows(s, s1) && Ready(s1, o.account, m, plan)
    requires var key := Key(o.account, o.space, plan.path);
             key in s.files && s.files[key].fileId == m.fileId && s.files[key].current.Some?
    ensures var key := Key(o.account, o.space, plan.path);
            var (s', r) := CommitEntry(s1, o, m, plan.path, plan.state, clock);
            Ends(OutcomeBefore(s, key, m, plan.state), s, s', key, m, plan.state, r)
  {
    hide Inv, Grows, CommitExisting, IsClean, DivertedBeside, AppendedAt;
    var key := Key(o.account, o.space, plan.path);
    assert KeptEntry(s.files[key], s1.files, key);
    HistoryKept(s, s1, key);
    CommitExistingResult(s1, o, m, key, plan.state, clock);
    CommitEntryInv(s1, o, m, plan.path, plan.state, clock);
    CommitEntryGrows(s1, o, m, plan.path, plan.state, clock);
    InvKeysMatch(s1);
    CommitEntryKeeps(s1, o, m, plan.path, plan.state, clock);
    var (s', r) := CommitEntry(s1, o, m, plan.path, plan.state, clock);
    match OutcomeOf(s.files[key], m, plan.state)
    case Refused =>
    case Unchanged =>
    case Diverted =>
      HistoryKept(s1, s', key);
      DivertedEarlier(s, s1, s', key, m, plan.state, r);
    case Appended =>
      AppendedEarlier(s, s1, s', key, m, plan.state, r);
  }

  lemma DivertedEarlier(s: Server, s1: Server, s': Server, key: Key, m: Manifest, state: EntryState,
                        r: Result<CommitResponse>)
    requires Inv(s) && Inv(s1) && Kept(s.files, s1.files) && Grows(s, s1)
    requires DivertedBeside(s1, s', key, m, state, r)
    ensures DivertedBeside(s, s', key, m, state, r)
  {
  }

  lemma AppendedEarlier(s: Server, s1: Server, s': Server, key: Key, m: Manifest, state: EntryState,
                        r: Result<CommitResponse>)
    requires AppendedAt(s1, s', key, m, state, r)
    requires key in s.files && s1.files[key] == s.files[key]
    requires History(s1.versions, s.files[key].fileId) == History(s.versions, s.files[key].fileId)
    ensures AppendedAt(s, s', key, m, state, r)
  {
  }

  /** A commit made from a record that names a stored version of its path, under an operation id not yet
      recorded, ends in one of four ways, and the entry at the path decides which.  Another file id there (or
      no entry, its tombstone having been pruned): refused, every version stays.  A directory on a live
      directory: answered with what is there.  The record names the newest version: the upload is appended
      right after it.  Otherwise: the upload is put beside, at a path no entry used, and the history stays. */
  lemma CommitFromRecord(s: Server, account: string, space: string, req: CommitRequest, plan: Plan, clock: Clock)
    requires Inv(s) && Ready(s, account, req.manifest, plan)
    requires Key(account, space, req.opId) !in s.ops
    requires Names(s.versions, Key(account, space, plan.path), req.manifest.fileId, req.manifest.base)
    ensures var key := Key(account, space, plan.path);
            var (s', r) := CommitLocked(s, account, space, req, plan, clock);
            Ends(OutcomeBefore(s, key, req.manifest, plan.state), s, s', key, req.manifest, plan.state, r)
  {
    hide Inv, IsClean, EnsureParents, Ancestors, CommitEntry, FreshEntries, Grows, Kept, Names;
    var m := req.manifest;
    var key := Key(account, space, plan.path);
    var o := RequestOrigin(account, space, req.device, req.root);
    var s1 := AfterParents(s, account, space, req, plan, clock);
    AfterParentsInv(s, account, space, req, plan, clock);
    NamedEntryHasVersion(s, key, m.fileId, m.base);
    ReadyStable(s, s1, account, m, plan);
    if key !in s.files || s.files[key].fileId != m.fileId {
      CommitOtherId(s, s1, o, m, plan, clock);
    } else {
      CommitSameId(s, s1, o, m, plan, clock);
    }
  }

  // ---------------------------------------------------------------- commits that name no file

  /** The entry at `key`, or its absence, is the same in both tables. */
  ghost predicate SameAt(files: map<Key, FileEntry>, files': map<Key, FileEntry>, key: Key) {
    if key in files then key in files' && files'[key] == files[key] else key !in files'
  }

  lemma CopyHasDepth(s: Server, o: Origin, path: string, clock: Clock)
    requires IsClean(path)
    ensures |Split(CopyKey(s, o, path, clock).name)| == |Split(path)|
  {
    ConflictNames.ConflictPathIsSibling(UsedPaths(s.files), path, o.device, clock.stamp);
  }

  lemma CommitExistingSameAt(s: Server, o: Origin, m: Manifest, at: Key, state: EntryState, clock: Clock, key: Key)
    requires at in s.files && IsClean(at.name) && |Split(at.name)| != |Split(key.name)|
    ensures SameAt(s.files, CommitExisting(s, o, m, at, state, clock).0.files, key)
  {
    hide OutcomeOf, Land, CommittedVersion, IsClean, WithCurrent, CopyKey, History;
    match OutcomeOf(s.files[at], m, state)
    case Refused =>
    case Unchanged =>
    case Diverted =>
      var copy := CopyKey(s, o, at.name, clock);
      CopyHasDepth(s, o, at.name, clock);
      LandTables(NewEntry(s, copy), o, m, copy, state, clock.now);
    case Appended => LandTables(s, o, m, at, state, clock.now);
  }

  lemma CommitEntrySameAt(s: Server, o: Origin, m: Manifest, path: string, state: EntryState, clock: Clock, key: Key)
    requires IsClean(path) && |Split(path)| != |Split(key.name)|
    ensures SameAt(s.files, CommitEntry(s, o, m, path, state, clock).0.files, key)
  {
    hide IsClean, CommitExisting;
    var at := Key(o.account, o.space, path);
    CommitExistingSameAt(EnsureEntry(s, at), o, m, at, state, clock, key);
  }

  /** Making parents touches no path of another depth, whatever names they end under. */
  lemma {:induction false} EnsureParentsSameAt(s: Server, o: Origin, dirs: seq<string>, modTime: int, clock: Clock,
                                               key: Key)
    requires forall i | 0 <= i < |dirs| :: IsClean(dirs[i]) && |Split(dirs[i])| != |Split(key.name)|
    ensures SameAt(s.files, EnsureParents(s, o, dirs, modTime, clock).files, key)
    decreases |dirs|
  {
    hide CommitEntry, IsClean;
    if dirs != [] {
      var s1 := CommitEntry(s, o, DirManifest(dirs[0], modTime), dirs[0], Dir, clock).0;
      CommitEntrySameAt(s, o, DirManifest(dirs[0], modTime), dirs[0], Dir, clock, key);
      EnsureParentsSameAt(s, o, dirs[1..], modTime, clock, key);
      EnsureParentsSameAt(s1, o, dirs[1..], modTime, clock, key);
    }
  }

  lemma AfterParentsSameAt(s: Server, account: string, space: string, req: CommitRequest, plan: Plan, clock: Clock)
    requires IsClean(plan.path)
    ensures SameAt(s.files, AfterParents(s, account, space, req, plan, clock).files, Key(account, space, plan.path))
  {
    hide IsClean, EnsureParents;
    var dirs := Ancestors(plan.path);
    forall i | 0 <= i < |dirs| ensures IsClean(dirs[i]) && |Split(dirs[i])| != |Split(plan.path)| {
      AncestorsClean(plan.path, i);
      SplitJoin(Split(plan.path)[..i + 1]);
    }
    EnsureParentsSameAt(s, RequestOrigin(account, space, req.device, req.root), dirs, req.manifest.modTime, clock,
                        Key(account, space, plan.path));
  }

  /** The upload became the only version of a new entry at `key`. */
  ghost predicate BegunAt(s: Server, s': Server, key: Key, m: Manifest, state: EntryState, r: Result<CommitResponse>) {
    key in s'.files && s'.files[key].current.Some? && r.Ok? && !r.value.conflict
    && var v := s'.files[key].current.value;
       r.value.version == Some(v) && Carries(v, m, state) && v.fileId == s'.files[key].fileId
       && v.fileId !in s.versions && v.fileId in s'.versions && s'.versions[v.fileId] == [v]
  }

  /** How a commit ends that names no file: by the entry at its path, should there be one. */
  ghost predicate EndsUnnamed(s: Server, s': Server, key: Key, m: Manifest, state: EntryState,
                              r: Result<CommitResponse>) {
    if key !in s.files then BegunAt(s, s', key, m, state, r)
    else
      var e := s.files[key];
      if state.Dir? && LiveDir(e) then
        r.Ok? && !r.value.conflict && r.value.version == e.current && Kept(s.files, s'.files)
      else if e.current.Some? && m.base != e.current.value.versionId then
        DivertedBeside(s, s', key, m, state, r) && key in s'.files && s'.files[key] == e
        && History(s'.versions, e.fileId) == History(s.versions, e.fileId)
      else AppendedAt(s, s', key, m, state, r)
  }

  lemma NewEntryBegins(s: Server, s1: Server, o: Origin, m: Manifest, plan: Plan, clock: Clock)
    requires Inv(s1) && Grows(s, s1) && IsClean(plan.path) && m.fileId == NoId
    requires var key := Key(o.account, o.space, plan.path); key !in s.files && key !in s1.files
    ensures var key := Key(o.account, o.space, plan.path);
            var (s', r) := CommitEntry(s1, o, m, plan.path, plan.state, clock);
            BegunAt(s, s', key, m, plan.state, r)
  {
    hide IsClean, UniqueVersionIds, FilesOk, LogOk, WindowOk, ReplayOk, ContentOk, OpsOk, ChunksOk, HistoryOk, Land,
         OpsGrow;
    var key := Key(o.account, o.space, plan.path);
    NextIdUnused(s1);
    LandAppends(NewEntry(s1, key), o, m, key, plan.state, clock.now);
  }

  lemma OldEntryDecides(s: Server, s1: Server, o: Origin, m: Manifest, plan: Plan, clock: Clock)
    requires Inv(s) && Inv(s1) && Kept(s.files, s1.files) && Grows(s, s1) && Ready(s1, o.account, m, plan)
    requires var key := Key(o.account, o.space, plan.path);
             m.fileId == NoId && key in s.files && key in s1.files && s1.files[key] == s.files[key]
    ensures var key := Key(o.account, o.space, plan.path);
            var (s', r) := CommitEntry(s1, o, m, plan.path, plan.state, clock);
            EndsUnnamed(s, s', key, m, plan.state, r)
  {
    hide Inv, Grows, CommitExisting, IsClean, DivertedBeside, AppendedAt, BegunAt, Carries;
    var key := Key(o.account, o.space, plan.path);
    SameHistory(s, s1, key);
    CommitExistingResult(s1, o, m, key, plan.state, clock);
    var (s', r) := CommitEntry(s1, o, m, plan.path, plan.state, clock);
    match OutcomeOf(s.files[key], m, plan.state)
    case Refused =>
    case Unchanged =>
    case Diverted =>
      CommitEntryInv(s1, o, m, plan.path, plan.state, clock);
      CommitEntryGrows(s1, o, m, plan.path, plan.state, clock);
      InvKeysMatch(s1);
      CommitEntryKeeps(s1, o, m, plan.path, plan.state, clock);
      HistoryKept(s1, s', key);
      DivertedEarlier(s, s1, s', key, m, plan.state, r);
    case Appended =>
      AppendedEarlier(s, s1, s', key, m, plan.state, r);
  }

  lemma SameHistory(s: Server, s': Server, key: Key)
    requires Inv(s) && Inv(s') && Grows(s, s') && key in s.files && key in s'.files && s'.files[key] == s.files[key]
    ensures History(s'.versions, s.files[key].fileId) == History(s.versions, s.files[key].fileId)
  {
    hide HistoriesOk, LogOk, WindowOk, ReplayOk, ContentOk, OpsOk, ChunksOk;
    if s.files[key].current.Some? { HistoryKept(s, s', key); }
    assert EntryOk(s.versions, key, s.files[key], s.nextId);
    assert EntryOk(s'.versions, key, s'.files[key], s'.nextId);
  }

  /** A first upload, which names no file, under an operation id not yet recorded.  No entry at its path: it is the
      only version of a new one.  An entry another client made there meanwhile: a directory on a live directory is
      answered with what is there; any other upload that is not based on the entry's version, as none is that
      names no base, is put beside it, and the entry and its history stay. */
  lemma CommitWithoutId(s: Server, account: string, space: string, req: CommitRequest, plan: Plan, clock: Clock)
    requires Inv(s) && Ready(s, account, req.manifest, plan)
    requires Key(account, space, req.opId) !in s.ops && req.manifest.fileId == NoId
    ensures var key := Key(account, space, plan.path);
            var (s', r) := CommitLocked(s, account, space, req, plan, clock);
            EndsUnnamed(s, s', key, req.manifest, plan.state, r)
  {
    hide Inv, IsClean, EnsureParents, Ancestors, CommitEntry, FreshEntries, Grows, Kept, Names;
    var m := req.manifest;
    var key := Key(account, space, plan.path);
    var o := RequestOrigin(account, space, req.device, req.root);
    var s1 := AfterParents(s, account, space, req, plan, clock);
    AfterParentsInv(s, account, space, req, plan, clock);
    AfterParentsSameAt(s, account, space, req, plan, clock);
    ReadyStable(s, s1, account, m, plan);
    if key in s.files {
      OldEntryDecides(s, s1, o, m, plan, clock);
    } else {
      NewEntryBegins(s, s1, o, m, plan, clock);
    }
  }
}
