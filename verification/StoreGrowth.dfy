/** What no server method takes back, whatever state it starts from. */
module StoreGrowth {
  import opened Model
  import opened Paths
  import opened StoreSpec
  import opened StoreInvariant

  ghost predicate OpsGrow(o: map<Key, CommitResponse>, o': map<Key, CommitResponse>) {
    forall op | op in o :: op in o' && o'[op] == o[op]
  }

  /** Histories and the log are extended at the end; recorded answers, chunk files and grants stay as they
      are; ids are drawn upwards; spaces are not touched. */
  ghost predicate Grows(s: Server, s': Server) {
    VersionsGrow(s.versions, s'.versions) && OpsGrow(s.ops, s'.ops) && ChunksGrow(s.chunks, s'.chunks)
    && s.grants <= s'.grants && s.log <= s'.log && s.nextId <= s'.nextId
  }

  lemma GrowsReflexive(s: Server)
    ensures Grows(s, s)
  {
  }

  lemma GrowsTransitive(a: Server, b: Server, c: Server)
    requires Grows(a, b) && Grows(b, c)
    ensures Grows(a, c)
  {
  }

  lemma InstallGrows(s: Server, key: Key, v: FileVersion)
    requires key in s.files
    ensures Grows(s, Install(s, key, v)) && Install(s, key, v).ops == s.ops
  {
  }

  lemma LandGrows(s: Server, o: Origin, m: Manifest, key: Key, state: EntryState, now: int)
    requires key in s.files
    ensures Grows(s, Land(s, o, m, key, state, now))
  {
  }

  lemma NewEntryGrows(s: Server, key: Key)
    ensures Grows(s, NewEntry(s, key))
  {
  }

  lemma EnsureEntryGrows(s: Server, key: Key)
    ensures Grows(s, EnsureEntry(s, key))
  {
  }

  lemma CommitExistingGrows(s: Server, o: Origin, m: Manifest, key: Key, state: EntryState, clock: Clock)
    requires key in s.files
    ensures Grows(s, CommitExisting(s, o, m, key, state, clock).0)
  {
    match OutcomeOf(s.files[key], m, state)
    case Refused => GrowsReflexive(s);
    case Unchanged => GrowsReflexive(s);
    case Diverted =>
      var copy := CopyKey(s, o, key.name, clock);
      var s1 := NewEntry(s, copy);
      NewEntryGrows(s, copy);
      LandGrows(s1, o, m, copy, state, clock.now);
      GrowsTransitive(s, s1, Land(s1, o, m, copy, state, clock.now));
    case Appended => LandGrows(s, o, m, key, state, clock.now);
  }

  lemma CommitEntryGrows(s: Server, o: Origin, m: Manifest, path: string, state: EntryState, clock: Clock)
    ensures Grows(s, CommitEntry(s, o, m, path, state, clock).0)
  {
    var key := Key(o.account, o.space, path);
    var s1 := EnsureEntry(s, key);
    EnsureEntryGrows(s, key);
    CommitExistingGrows(s1, o, m, key, state, clock);
    GrowsTransitive(s, s1, CommitExisting(s1, o, m, key, state, clock).0);
  }

  lemma {:induction false} EnsureParentsGrows(s: Server, o: Origin, dirs: seq<string>, modTime: int, clock: Clock)
    ensures Grows(s, EnsureParents(s, o, dirs, modTime, clock))
    decreases |dirs|
  {
    if dirs == [] {
      GrowsReflexive(s);
    } else if IsLiveDir(s.files, Key(o.account, o.space, dirs[0])) {
      EnsureParentsGrows(s, o, dirs[1..], modTime, clock);
    } else {
      var s1 := CommitEntry(s, o, DirManifest(dirs[0], modTime), dirs[0], Dir, clock).0;
      CommitEntryGrows(s, o, DirManifest(dirs[0], modTime), dirs[0], Dir, clock);
      EnsureParentsGrows(s1, o, dirs[1..], modTime, clock);
      GrowsTransitive(s, s1, EnsureParents(s, o, dirs, modTime, clock));
    }
  }

  lemma CommitLockedGrows(s: Server, account: string, space: string, req: CommitRequest, plan: Plan, clock: Clock)
    ensures Grows(s, CommitLocked(s, account, space, req, plan, clock).0)
  {
    var o := RequestOrigin(account, space, req.device, req.root);
    var s1 := EnsureParents(s, o, Ancestors(plan.path), req.manifest.modTime, clock);
    var opKey := Key(account, space, req.opId);
    EnsureParentsGrows(s, o, Ancestors(plan.path), req.manifest.modTime, clock);
    if opKey !in s1.ops {
      var (s2, r) := CommitEntry(s1, o, req.manifest, plan.path, plan.state, clock);
      CommitEntryGrows(s1, o, req.manifest, plan.path, plan.state, clock);
      CommitEntrySides(s1, o, req.manifest, plan.path, plan.state, clock);
      GrowsTransitive(s, s1, s2);
      if r.Ok? {
        RecordGrows(s2, opKey, r.value);
        GrowsTransitive(s, s2, s2.(ops := s2.ops[opKey := r.value]));
      }
    }
  }

  lemma RecordGrows(s: Server, op: Key, r: CommitResponse)
    requires op !in s.ops
    ensures Grows(s, s.(ops := s.ops[op := r]))
  {
  }

  /** Neither the recorded answers, nor the spaces, nor the chunk files are touched while entries are written. */
  ghost predicate SameSides(s: Server, s': Server) {
    s'.ops == s.ops && s'.spaces == s.spaces && s'.chunks == s.chunks
  }

  lemma LandSides(s: Server, o: Origin, m: Manifest, key: Key, state: EntryState, now: int)
    requires key in s.files
    ensures SameSides(s, Land(s, o, m, key, state, now))
  {
  }

  lemma CommitExistingSides(s: Server, o: Origin, m: Manifest, key: Key, state: EntryState, clock: Clock)
    requires key in s.files
    ensures SameSides(s, CommitExisting(s, o, m, key, state, clock).0)
  {
    hide Land, OutcomeOf, CopyKey;
    match OutcomeOf(s.files[key], m, state)
    case Refused =>
    case Unchanged =>
    case Diverted =>
      var copy := CopyKey(s, o, key.name, clock);
      LandSides(NewEntry(s, copy), o, m, copy, state, clock.now);
    case Appended => LandSides(s, o, m, key, state, clock.now);
  }

  lemma CommitEntrySides(s: Server, o: Origin, m: Manifest, path: string, state: EntryState, clock: Clock)
    ensures SameSides(s, CommitEntry(s, o, m, path, state, clock).0)
  {
    var key := Key(o.account, o.space, path);
    CommitExistingSides(EnsureEntry(s, key), o, m, key, state, clock);
  }

  lemma {:induction false} EnsureParentsSides(s: Server, o: Origin, dirs: seq<string>, modTime: int, clock: Clock)
    ensures SameSides(s, EnsureParents(s, o, dirs, modTime, clock))
    decreases |dirs|
  {
    hide CommitEntry;
    if dirs != [] {
      if IsLiveDir(s.files, Key(o.account, o.space, dirs[0])) {
        EnsureParentsSides(s, o, dirs[1..], modTime, clock);
      } else {
        CommitEntrySides(s, o, DirManifest(dirs[0], modTime), dirs[0], Dir, clock);
        EnsureParentsSides(CommitEntry(s, o, DirManifest(dirs[0], modTime), dirs[0], Dir, clock).0,
                           o, dirs[1..], modTime, clock);
      }
    }
  }

  lemma GrantEmptyGrows(s: Server, account: string, m: Manifest, plan: Plan)
    ensures Grows(s, GrantEmpty(s, account, m, plan))
  {
  }

  lemma CommitGrows(s: Server, account: string, space: string, req: CommitRequest, clock: Clock)
    ensures Grows(s, Commit(s, account, space, req, clock).0)
  {
    match CheckCommit(s, account, space, req)
    case Err(_) => GrowsReflexive(s);
    case Ok(plan) =>
      var s1 := GrantEmpty(s, account, req.manifest, plan);
      GrantEmptyGrows(s, account, req.manifest, plan);
      CommitLockedGrows(s1, account, space, req, plan, clock);
      GrowsTransitive(s, s1, Commit(s, account, space, req, clock).0);
  }

  lemma AnswerGrows(s: Server, op: Key, r: CommitResponse)
    requires op !in s.ops
    ensures Grows(s, s.(ops := s.ops[op := r]))
  {
  }

  lemma DeleteGrows(s: Server, account: string, space: string, req: DeleteRequest, clock: Clock)
    ensures Grows(s, Delete(s, account, space, req, clock).0)
  {
    hide CleanRel, Install, Tombstone, SpaceActive, Grows;
    GrowsReflexive(s);
    var r, op := Delete(s, account, space, req, clock).1, Key(account, space, req.opId);
    if CleanRel(req.path).Ok? && r.Ok? && op !in s.ops {
      AnswerGrows(s, op, r.value);
      var key := Key(account, space, CleanRel(req.path).value);
      if key in s.files {
        var o := RequestOrigin(account, space, req.device, req.root);
        var s1 := Install(s, key, Tombstone(o, key, s.files[key], req.base, Issued(s.nextId), clock.now));
        InstallGrows(s, key, Tombstone(o, key, s.files[key], req.base, Issued(s.nextId), clock.now));
        AnswerGrows(s1, op, r.value);
        GrowsTransitive(s, s1, s1.(ops := s1.ops[op := r.value]));
      }
    }
  }

  lemma PruneGrows(s: Server, now: int)
    ensures Grows(s, Prune(s, now))
  {
  }

  lemma RestoreGrows(s: Server, account: string, req: RestoreRequest, actor: string, clock: Clock)
    ensures Grows(s, Restore(s, account, req, actor, clock).0)
  {
    hide RestoreSource, RestoreDevice, RestoreSpace, CleanRel, SpaceActive, Grows, Prune, Install;
    var s1 := Prune(s, clock.now);
    GrowsReflexive(s);
    PruneGrows(s, clock.now);
    var space := RestoreSpace(req);
    if CleanRel(req.path).Ok? {
      var key := Key(account, space, CleanRel(req.path).value);
      if key in s1.files && InTrash(s1.files[key]) {
        var tombstone := s1.files[key].current.value;
        match RestoreSource(History(s1.versions, req.fileId), tombstone)
        case None =>
        case Some(source) =>
          var v := RestoredVersion(account, space, key, s1.files[key], source, tombstone.versionId, Issued(s1.nextId),
                                   RestoreDevice(actor), clock.now);
          InstallGrows(s1, key, v);
          GrowsTransitive(s, s1, Install(s1, key, v));
          MarkedGrows(s, Install(s1, key, v), s1.restored + {v.versionId});
      }
    }
  }

  lemma MarkedGrows(s: Server, s': Server, restored: set<Id>)
    requires Grows(s, s')
    ensures Grows(s, s'.(restored := restored))
  {
  }

  lemma PutChunkGrows(s: Server, hash: string, data: Bytes)
    ensures Grows(s, PutChunk(s, hash, data).0)
  {
    GrowsReflexive(s);
  }

  lemma GrantGrows(s: Server, account: string, hash: string)
    ensures Grows(s, GrantAccountChunk(s, account, hash).0)
  {
  }
}
