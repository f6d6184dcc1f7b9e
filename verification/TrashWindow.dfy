/** How long a deleted file can be restored, whatever else happens meanwhile. */
module TrashWindow {
  import opened Model
  import opened Paths
  import opened StoreSpec
  import opened StoreInvariant
  import opened StoreGrowth
  import opened StoreCommit
  import opened StoreTrash
  import opened NoLostUpdate
  import opened SyncProtocol
  import opened SyncSafety
  import opened Redelivery
  import ChunkRefs

  // ---------------------------------------------------------------- steps that leave an entry alone

  /** The step is not a commit, deletion or restore at `key` itself; commits below it are allowed. */
  ghost predicate Elsewhere(w: World, step: Step, key: Key) {
    match step
    case HandleCommit(opId, plan, clock) =>
      IsSentCommit(w, opId) ==>
        Key(w.clients[w.sent[opId].client].account, w.clients[w.sent[opId].client].space, plan.path) != key
    case HandleDelete(opId, clock) =>
      IsSentDelete(w, opId) ==>
        var c := w.clients[w.sent[opId].client];
        c.account != key.account || c.space != key.space || CleanRel(w.sent[opId].message.delete.path) != Ok(key.name)
    case RestoreFile(account, req, actor, clock) =>
      account != key.account || RestoreSpace(req) != key.space || CleanRel(req.path) != Ok(key.name)
    case _ => true
  }

  /** The step reads no clock later than `now` when it prunes. */
  predicate NotAfter(step: Step, now: int) {
    match step
    case RestoreFile(_, _, _, clock) => clock.now <= now
    case PruneTrash(time) => time <= now
    case _ => true
  }

  ghost predicate AllElsewhere(w: World, steps: seq<Step>, key: Key, now: int)
    decreases |steps|
  {
    steps != [] ==>
      Elsewhere(w, steps[0], key) && NotAfter(steps[0], now) && AllElsewhere(Next(w, steps[0]), steps[1..], key, now)
  }

  /** Either the entry is still there, or it had expired and its file id is gone from the path. */
  ghost predicate StillOrExpired(files: map<Key, FileEntry>, key: Key, e: FileEntry, now: int) {
    (key in files && files[key] == e)
    || (Expired(e, now) && (key in files ==> files[key].fileId != e.fileId))
  }

  lemma CommitLockedFresh(s: Server, account: string, space: string, req: CommitRequest, plan: Plan, clock: Clock)
    requires Inv(s) && IsClean(plan.path)
    ensures FreshEntries(s, CommitLocked(s, account, space, req, plan, clock).0)
  {
    hide Inv, IsClean, EnsureParents, Ancestors, CommitEntry, FreshEntries, Grows, Kept;
    var s1 := AfterParents(s, account, space, req, plan, clock);
    var o := RequestOrigin(account, space, req.device, req.root);
    AfterParentsInv(s, account, space, req, plan, clock);
    var s2 := CommitEntry(s1, o, req.manifest, plan.path, plan.state, clock).0;
    CommitEntryFresh(s1, o, req.manifest, plan.path, plan.state, clock);
    FreshTransitive(s, s1, s2);
    FreshFiles(s, s2, CommitLocked(s, account, space, req, plan, clock).0);
  }

  lemma FreshFiles(s: Server, a: Server, b: Server)
    requires FreshEntries(s, a)
    ensures a.files == b.files && a.nextId == b.nextId ==> FreshEntries(s, b)
  {
  }

  lemma CommitElsewhere(s: Server, account: string, space: string, req: CommitRequest, plan: Plan, clock: Clock,
                        key: Key, e: FileEntry, now: int)
    requires Inv(s) && Ready(s, account, req.manifest, plan) && Key(account, space, plan.path) != key
    requires StillOrExpired(s.files, key, e, now) && e.current.Some? && e.fileId.Issued? && e.fileId.n < s.nextId
    ensures StillOrExpired(CommitLocked(s, account, space, req, plan, clock).0.files, key, e, now)
  {
    CommitLosesNothing(s, account, space, req, plan, clock);
    ReadyPath(s, account, req.manifest, plan);
    CommitLockedFresh(s, account, space, req, plan, clock);
    hide Inv, Ready, CommitLocked, IsClean;
  }

  /** A deletion touches no entry but the one at its path. */
  lemma DeleteElsewhere(s: Server, account: string, space: string, req: DeleteRequest, clock: Clock, key: Key)
    requires account != key.account || space != key.space || CleanRel(req.path) != Ok(key.name)
    ensures var files' := Delete(s, account, space, req, clock).0.files;
            (key in files' <==> key in s.files) && (key in s.files ==> files'[key] == s.files[key])
  {
    hide SpaceActive, CleanRel, Tombstone, Install;
    if CleanRel(req.path).Ok? {
      var k := Key(account, space, CleanRel(req.path).value);
      if k in s.files {
        InstallCurrent(s, k, Tombstone(RequestOrigin(account, space, req.device, req.root), k, s.files[k], req.base,
                                       Issued(s.nextId), clock.now));
      }
    }
  }

  lemma PruneStill(s: Server, time: int, key: Key, e: FileEntry, now: int)
    requires time <= now && StillOrExpired(s.files, key, e, now)
    ensures StillOrExpired(Prune(s, time).files, key, e, now)
  {
  }

  lemma RestoreElsewhere(s: Server, account: string, req: RestoreRequest, actor: string, clock: Clock, key: Key,
                         e: FileEntry, now: int)
    requires clock.now <= now && StillOrExpired(s.files, key, e, now)
    requires account != key.account || RestoreSpace(req) != key.space || CleanRel(req.path) != Ok(key.name)
    ensures StillOrExpired(Restore(s, account, req, actor, clock).0.files, key, e, now)
  {
    hide SpaceActive, CleanRel, Install, Prune, RestoreSource, RestoreDevice, RestoreSpace, Expired;
    PruneStill(s, clock.now, key, e, now);
    var s1 := Prune(s, clock.now);
    if CleanRel(req.path).Ok? {
      var k := Key(account, RestoreSpace(req), CleanRel(req.path).value);
      if k in s1.files && InTrash(s1.files[k]) {
        var x := s1.files[k];
        match RestoreSource(History(s1.versions, req.fileId), x.current.value)
        case None =>
        case Some(source) =>
          InstallCurrent(s1, k, RestoredVersion(account, k.space, k, x, source, x.current.value.versionId,
                                                Issued(s1.nextId), RestoreDevice(actor), clock.now));
      }
    }
  }

  lemma StepElsewhere(w: World, step: Step, key: Key, e: FileEntry, now: int)
    requires WorldOk(w) && Elsewhere(w, step, key) && NotAfter(step, now)
    requires StillOrExpired(w.server.files, key, e, now)
    requires e.current.Some? && e.fileId.Issued? && e.fileId.n < w.server.nextId
    ensures StillOrExpired(Next(w, step).server.files, key, e, now)
  {
    hide Inv, ChunkRefs.Conserved, SentOk, OpsAnswer, RepliesOk, LocalsOk, StillOrExpired, CheckCommit, CommitLocked,
         Delete, Restore, Prune, RestoreSpace, CleanRel, IsClean, Ready, Recorded, Applied, Upload, Removal,
         EventsAfter;
    match step
    case HandleCommit(opId, plan, clock) =>
      if IsSentCommit(w, opId) && (opId, plan) in w.checked {
        var c := w.clients[w.sent[opId].client];
        assert (opId, plan).0 in w.sent;
        CommitElsewhere(w.server, c.account, c.space, w.sent[opId].message.commit, plan, clock, key, e, now);
      }
    case HandleDelete(opId, clock) =>
      if IsSentDelete(w, opId) {
        var c := w.clients[w.sent[opId].client];
        DeleteElsewhere(w.server, c.account, c.space, w.sent[opId].message.delete, clock, key);
        SameAtKey(w.server.files, Delete(w.server, c.account, c.space, w.sent[opId].message.delete, clock).0.files,
                  key, e, now);
      }
    case RestoreFile(account, req, actor, clock) => RestoreElsewhere(w.server, account, req, actor, clock, key, e, now);
    case PruneTrash(time) => PruneStill(w.server, time, key, e, now);
    case _ => QuietFiles(w, step);
  }

  lemma SameAtKey(files: map<Key, FileEntry>, files': map<Key, FileEntry>, key: Key, e: FileEntry, now: int)
    requires StillOrExpired(files, key, e, now)
    requires (key in files' <==> key in files) && (key in files ==> files'[key] == files[key])
    ensures StillOrExpired(files', key, e, now)
  {
  }

  lemma QuietFiles(w: World, step: Step)
    requires !step.HandleCommit? && !step.HandleDelete? && !step.RestoreFile? && !step.PruneTrash?
    ensures Next(w, step).server.files == w.server.files
  {
    if step.UploadChunk? { ChunkFiles(w.server, step.account, step.hash, step.data); }
    hide CheckCommit, Recorded, Applied, Touched, Upload, Removal, EventsAfter, IsClean, CommitLocked, Delete, Restore,
         Prune, PutChunk, GrantAccountChunk;
  }

  lemma ChunkFiles(s: Server, account: string, hash: string, data: Bytes)
    ensures GrantAccountChunk(PutChunk(s, hash, data).0, account, hash).0.files == s.files
  {
  }

  lemma {:induction false} RunElsewhere(w: World, steps: seq<Step>, key: Key, e: FileEntry, now: int)
    requires WorldOk(w) && AllElsewhere(w, steps, key, now)
    requires StillOrExpired(w.server.files, key, e, now)
    requires e.current.Some? && e.fileId.Issued? && e.fileId.n < w.server.nextId
    ensures StillOrExpired(Run(w, steps).server.files, key, e, now)
    decreases |steps|
  {
    hide WorldOk, Elsewhere, Next, StillOrExpired;
    if steps != [] {
      StepElsewhere(w, steps[0], key, e, now);
      NextOk(w, steps[0]);
      NextGrows(w, steps[0]);
      RunElsewhere(Next(w, steps[0]), steps[1..], key, e, now);
    }
  }

  // ---------------------------------------------------------------- the restore itself

  /** A tombstone of a file follows that file's last version and repeats its content columns. */
  lemma BeforeTombstone(s: Server, key: Key)
    requires Inv(s) && key in s.files && InTrash(s.files[key]) && s.files[key].current.value.deletedState.File?
    ensures var e := s.files[key];
            var t := e.current.value;
            var h := History(s.versions, e.fileId);
            |h| > 1 && h[|h| - 1] == t
            && h[|h| - 2].state.File? && RestoreSource(h, t) == Some(h[|h| - 2])
            && h[|h| - 2].hash == t.hash && h[|h| - 2].size == t.size && h[|h| - 2].chunks == t.chunks
  {
    hide UniqueVersionIds, LogOk, WindowOk, ReplayOk, ContentOk, OpsOk, ChunksOk, VersionOk;
    var e := s.files[key];
    assert EntryOk(s.versions, key, e, s.nextId);
    var h := s.versions[e.fileId];
    assert HistoryOk(e.fileId, h, s.nextId);
    assert |h| > 1 ==> Follows(h[|h| - 2], h[|h| - 1]);
    assert NewestFile(h, |h|) == NewestFile(h, |h| - 1) == Some(h[|h| - 2]);
  }

  predicate Asks(account: string, req: RestoreRequest, key: Key, fileId: Id) {
    account == key.account && RestoreSpace(req) == key.space && CleanRel(req.path) == Ok(key.name)
    && req.fileId == fileId && fileId != NoId
  }

  /** Restoring the entry of a deleted file that is still there succeeds exactly within the retention. */
  lemma RestoreDecided(s: Server, account: string, req: RestoreRequest, actor: string, clock: Clock, key: Key)
    requires Inv(s) && key in s.files && InTrash(s.files[key]) && s.files[key].current.value.deletedState.File?
    requires Asks(account, req, key, s.files[key].fileId) && SpaceActive(s, key.account, key.space)
    ensures var t := s.files[key].current.value;
            var (s', r) := Restore(s, account, req, actor, clock);
            (r.Ok? <==> clock.now < t.deletedAt + TRASH_RETENTION_SECONDS)
            && (r.Ok? ==>
                  r.value.version.Some?
                  && var v := r.value.version.value;
                     v.fileId == s.files[key].fileId && v.state.File? && v.base == t.versionId
                     && v.hash == t.hash && v.size == t.size && v.chunks == t.chunks
                     && key in s'.files && s'.files[key].current == Some(v))
  {
    BeforeTombstone(s, key);
    var s1 := Prune(s, clock.now);
    var e := s.files[key];
    hide Inv, NewestFile, RestoreSource, CleanRel, RestoreSpace, RestoreDevice, Install;
    assert SpaceActive(s, account, RestoreSpace(req));
    if !Expired(e, clock.now) {
      assert key in s1.files && s1.files[key] == e;
      var source := RestoreSource(History(s1.versions, e.fileId), e.current.value).value;
      InstallCurrent(s1, key, RestoredVersion(account, key.space, key, e, source, e.current.value.versionId,
                                              Issued(s1.nextId), RestoreDevice(actor), clock.now));
    }
  }

  lemma RestoreGone(s: Server, account: string, req: RestoreRequest, actor: string, clock: Clock, key: Key, fileId: Id)
    requires Asks(account, req, key, fileId)
    requires key in s.files ==> s.files[key].fileId != fileId
    ensures Restore(s, account, req, actor, clock).1.Err?
  {
  }

  lemma TrashedEntryId(s: Server, key: Key)
    requires Inv(s) && key in s.files
    ensures s.files[key].fileId.Issued? && s.files[key].fileId.n < s.nextId
  {
  }

  /** A deleted file whose entry no commit, deletion or restore addresses can be restored, in an active space, at
      exactly the times before its retention ends: through any number of prunes up to that time, and
      whatever else the server and the clients do.  The restored version has the file id and the content
      of the version before the tombstone. */
  lemma RestorableUntilExpiry(w: World, steps: seq<Step>, key: Key, account: string, req: RestoreRequest, actor: string,
                              clock: Clock)
    requires WorldOk(w)
    requires key in w.server.files && InTrash(w.server.files[key])
    requires w.server.files[key].current.value.deletedState.File?
    requires AllElsewhere(w, steps, key, clock.now)
    requires Asks(account, req, key, w.server.files[key].fileId)
    requires SpaceActive(Run(w, steps).server, key.account, key.space)
    ensures var e := w.server.files[key];
            var t := e.current.value;
            var r := Restore(Run(w, steps).server, account, req, actor, clock).1;
            (r.Ok? <==> clock.now < t.deletedAt + TRASH_RETENTION_SECONDS)
            && (r.Ok? ==>
                  r.value.version.Some?
                  && r.value.version.value.fileId == e.fileId && r.value.version.value.state.File?
                  && r.value.version.value.hash == t.hash && r.value.version.value.size == t.size
                  && r.value.version.value.chunks == t.chunks)
  {
    hide WorldOk, Inv, Restore, CleanRel, Run, AllElsewhere, SpaceActive, Asks;
    var e := w.server.files[key];
    var s := Run(w, steps).server;
    WorldServer(w);
    TrashedEntryId(w.server, key);
    RunElsewhere(w, steps, key, e, clock.now);
    RunOk(w, steps);
    WorldServer(Run(w, steps));
    if key in s.files && s.files[key] == e {
      RestoreDecided(s, account, req, actor, clock, key);
    } else {
      RestoreGone(s, account, req, actor, clock, key, e.fileId);
    }
  }
}
