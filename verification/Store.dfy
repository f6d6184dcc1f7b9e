/** The server's store as the code has it: an object whose tables its methods update in place
    (internal/server/store.go).  Every method is proved to do what its function in `StoreSpec` computes,
    and to keep the invariant. */
module StoreObject {
  import opened Model
  import opened Paths
  import opened ConflictNames
  import opened Text
  import opened StoreSpec
  import opened StoreInvariant
  import opened StoreGrowth
  import opened StoreCommit
  import opened StoreTrash
  import opened ChunkRefs

  datatype TrashEntry = TrashEntry(space: string, fileId: Id, path: string, versionId: Id, size: int, hash: string,
                                   deletedAt: int, expiresAt: int, device: string)

  function TrashEntryFromVersion(v: FileVersion): TrashEntry {
    TrashEntry(v.space, v.fileId, v.path, v.versionId, v.size, v.hash, v.deletedAt,
               v.deletedAt + TRASH_RETENTION_SECONDS, v.device)
  }

  /** No file and no version goes by the id. */
  ghost predicate IdUnused(s: Server, id: Id) {
    id !in s.versions && (forall k | k in s.files :: s.files[k].fileId != id)
    && forall h, i | h in s.versions && 0 <= i < |s.versions[h]| :: s.versions[h][i].versionId != id
  }

  lemma NextIdIsUnused(s: Server)
    requires Inv(s)
    ensures IdUnused(s, Issued(s.nextId))
  {
    hide UniqueVersionIds, DistinctFileIds, LogOk, WindowOk, ReplayOk, ChunksOk, ContentOk, OpsOk, IsClean, Follows,
         Starts;
    forall k | k in s.files ensures s.files[k].fileId != Issued(s.nextId) {
      assert EntryOk(s.versions, k, s.files[k], s.nextId);
    }
    forall h | h in s.versions
      ensures h != Issued(s.nextId)
      ensures forall i | 0 <= i < |s.versions[h]| :: s.versions[h][i].versionId != Issued(s.nextId)
    {
      assert HistoryOk(h, s.versions[h], s.nextId);
      forall i | 0 <= i < |s.versions[h]| ensures s.versions[h][i].versionId != Issued(s.nextId) {
        assert VersionOk(h, s.versions[h][0], s.versions[h][i], s.nextId);
      }
    }
  }

  class Store {
    var spaces: map<(string, string), bool>
    var files: map<Key, FileEntry>
    var versions: map<Id, seq<FileVersion>>
    var operations: map<Key, CommitResponse>
    var chunkRefs: map<string, nat>
    var accountChunks: set<(string, string)>
    var chunkFiles: map<string, Bytes>
    var events: seq<Event>
    var lastEventSeq: nat
    var nextId: nat
    ghost var log: seq<Event>
    ghost var restored: set<Id>

    /** The tables as one value. */
    ghost function Tables(): Server
      reads this
    {
      Server(spaces, files, versions, operations, chunkRefs, accountChunks, chunkFiles, events, lastEventSeq,
             nextId, log, restored)
    }

    ghost predicate Valid()
      reads this
    {
      Inv(Tables()) && Conserved(Tables())
    }

    constructor ()
      ensures Tables() == EMPTY && Valid()
    {
      spaces, files, versions, operations := map[], map[], map[], map[];
      chunkRefs, accountChunks, chunkFiles := map[], {}, map[];
      events, lastEventSeq, nextId, log, restored := [], 0, 0, [], {};
      new;
      EmptyInv();
    }

    // -------------------------------------------------------------- chunks

    method PutChunk(hash: string, data: Bytes) returns (r: Result<bool>)
      requires Valid()
      modifies this`chunkFiles
      ensures (Tables(), r) == StoreSpec.PutChunk(old(Tables()), hash, data)
      ensures Valid()
    {
      hide Inv, Conserved;
      PutChunkInv(Tables(), hash, data);
      SameCountsConserves(Tables(), StoreSpec.PutChunk(Tables(), hash, data).0);
      if HashBytes(data) != hash { return Err("chunk hash mismatch"); }
      if hash !in chunkFiles { chunkFiles := chunkFiles[hash := data]; }
      r := Ok(true);
    }

    method GrantAccountChunk(account: string, hash: string) returns (r: Result<bool>)
      requires Valid()
      modifies this`accountChunks
      ensures (Tables(), r) == StoreSpec.GrantAccountChunk(old(Tables()), account, hash)
      ensures Valid()
    {
      hide Inv, Conserved;
      GrantInv(Tables(), account, hash);
      SameCountsConserves(Tables(), StoreSpec.GrantAccountChunk(Tables(), account, hash).0);
      if !HasChunk(chunkFiles, hash) { return Err("missing chunk"); }
      accountChunks := accountChunks + {(account, hash)};
      r := Ok(true);
    }

    predicate HasAccountChunk(account: string, hash: string)
      reads this`chunkFiles, this`accountChunks
    {
      HasChunk(chunkFiles, hash) && (account, hash) in accountChunks
    }

    method CheckChunks(account: string, hashes: seq<string>) returns (missing: seq<string>)
      ensures missing == StoreSpec.CheckChunks(Tables(), account, hashes)
    {
      missing := [];
      for i := 0 to |hashes|
        invariant StoreSpec.CheckChunks(Tables(), account, hashes)
               == missing + StoreSpec.CheckChunks(Tables(), account, hashes[i..])
      {
        assert hashes[i..][1..] == hashes[i + 1..];
        if !HasAccountChunk(account, hashes[i]) { missing := missing + [hashes[i]]; }
      }
    }

    /** `verifyManifest`; `hashed` is what was fed to the digest. */
    method VerifyManifest(account: string, m: Manifest) returns (r: Result<bool>)
      modifies this`accountChunks
      ensures r == Verify(old(Tables()), account, m)
      ensures accountChunks == old(accountChunks)
                               + if r.Ok? && |m.chunks| == 0 then {(account, m.hash)} else {}
    {
      if |m.chunks| == 0 {
        if m.size != 0 { return Err("empty chunk list with non-zero size"); }
        if m.hash != HashBytes([]) { return Err("empty file hash mismatch"); }
        accountChunks := accountChunks + {(account, m.hash)};
        return Ok(true);
      }
      var hashed: Bytes := [];
      var total := 0;
      var i := 0;
      while i < |m.chunks|
        invariant 0 <= i <= |m.chunks| && total == |hashed|
        invariant Verify(Tables(), account, m) == VerifyFrom(Tables(), account, m, i, hashed)
      {
        var chunk := m.chunks[i];
        if chunk.index != i { return Err("chunk index out of order"); }
        if !IsHash(chunk.hash) { return Err("invalid chunk hash"); }
        if !HasAccountChunk(account, chunk.hash) { return Err("chunk is not available to this account"); }
        var data := chunkFiles[chunk.hash];
        if |data| != chunk.size { return Err("chunk size mismatch"); }
        hashed := hashed + data;
        total := total + |data|;
        i := i + 1;
      }
      if total != m.size { return Err("file size mismatch"); }
      if HashBytes(hashed) != m.hash { return Err("file hash mismatch"); }
      r := Ok(true);
    }

    // -------------------------------------------------------------- events

    method AppendEvent(v: FileVersion)
      modifies this`lastEventSeq, this`events, this`log
      ensures Tables() == StoreSpec.AppendEvent(old(Tables()), v)
    {
      lastEventSeq := lastEventSeq + 1;
      var event := Event(lastEventSeq, v);
      events := events + [event];
      log := log + [event];
      if |events| > MAX_EVENTS { events := events[|events| - MAX_EVENTS..]; }
    }

    method EventsAfter(account: string, space: string, after: nat) returns (found: seq<Event>)
      ensures found == StoreSpec.EventsAfter(Tables(), account, space, after)
    {
      found := [];
      for i := 0 to |events|
        invariant found == FilterEvents(events[..i], account, space, after)
      {
        var e := events[i];
        assert events[..i + 1][..i] == events[..i];
        if e.version.account == account && e.version.space == space && e.seqNo > after { found := found + [e]; }
      }
      assert events[..|events|] == events;
    }

    // -------------------------------------------------------------- commit

    method NewID() returns (id: Id)
      modifies this`nextId
      ensures id == Issued(old(nextId)) && nextId == old(nextId) + 1
      ensures Inv(old(Tables())) ==> IdUnused(old(Tables()), id)
    {
      hide IdUnused;
      if Inv(Tables()) { NextIdIsUnused(Tables()); }
      id := Issued(nextId);
      nextId := nextId + 1;
    }

    predicate ConflictPathExists(candidate: string)
      reads this`files
    {
      exists k :: k in files && files[k].path == candidate
    }

    /** `nextConflictPathLocked`: count up until a candidate is not taken. */
    method NextConflictPath(path: string, device: string, stamp: Stamp) returns (candidate: string)
      ensures candidate == ConflictNames.NextConflictPath(UsedPaths(files), path, device, stamp)
    {
      ghost var used := UsedPaths(files);
      candidate := Candidate(path, device, stamp, 1);
      var i := 1;
      while ConflictPathExists(candidate)
        invariant i >= 1 && candidate == Candidate(path, device, stamp, i)
        invariant forall j | 1 <= j < i :: Candidate(path, device, stamp, j) in used
        invariant FirstFree(used, path, device, stamp, 1) == FirstFree(used, path, device, stamp, i)
        decreases |used| + 1 - i
      {
        Pigeonhole(used, path, device, stamp, i);
        i := i + 1;
        candidate := Candidate(path, device, stamp, i);
      }
    }

    /** The chunk bookkeeping at the end of `commitEntryLocked`. */
    method CountChunks(v: FileVersion)
      modifies this`chunkRefs, this`accountChunks
      ensures Tables() == StoreSpec.CountChunks(old(Tables()), v)
    {
      if v.state.File? {
        ghost var granted := accountChunks;
        for i := 0 to |v.chunks|
          invariant AddRefs(old(chunkRefs), v.chunks) == AddRefs(chunkRefs, v.chunks[i..])
          invariant accountChunks == granted + ChunkGrants(v.account, v.chunks[..i])
        {
          var h := v.chunks[i].hash;
          assert v.chunks[i..][1..] == v.chunks[i + 1..];
          assert v.chunks[..i + 1] == v.chunks[..i] + [v.chunks[i]];
          MoreChunkGrants(v.account, v.chunks, i);
          chunkRefs := chunkRefs[h := (if h in chunkRefs then chunkRefs[h] else 0) + 1];
          accountChunks := accountChunks + {(v.account, h)};
        }
        assert v.chunks[..|v.chunks|] == v.chunks;
      }
    }

    /** Make `v` the current version of `entry`, which is filed under `key`. */
    method SetCurrent(key: Key, entry: FileEntry, v: FileVersion)
      requires key in files && entry == files[key] && nextId > 0
      modifies this`files, this`versions, this`events, this`lastEventSeq, this`log
      ensures old(nextId) > 0
      ensures Tables() == Install(old(Tables()).(nextId := (old(nextId) - 1) as nat), key, v)
    {
      var e := entry.(current := Some(v), deleted := v.state.Deleted?, latest := v.versionId, updatedAt := v.createdAt);
      files := files[key := e];
      versions := versions[v.fileId := (if v.fileId in versions then versions[v.fileId] else []) + [v]];
      AppendEvent(v);
    }

    /** `commitEntryLocked`. */
    method CommitEntry(o: Origin, m: Manifest, path: string, state: EntryState, clock: Clock)
      returns (r: Result<CommitResponse>)
      modifies this
      ensures (Tables(), r) == StoreSpec.CommitEntry(old(Tables()), o, m, path, state, clock)
    {
      hide UsedPaths, ConflictNames.NextConflictPath, LandAt;
      var key := Key(o.account, o.space, path);
      if key !in files {
        var id := NewID();
        files := files[key := BlankEntry(key, id)];
      }
      ghost var s1 := Tables();
      assert s1 == EnsureEntry(old(Tables()), key);
      var entry := files[key];
      if m.fileId != NoId && entry.fileId != m.fileId { return Err("file_id mismatch"); }
      if state.Dir? && entry.current.Some? && entry.current.value.state.Dir? && !entry.deleted {
        return Ok(CommitResponse(StatusOk, entry, entry.current, false, "", None));
      }
      var conflict := false;
      if entry.current.Some? && m.base != entry.current.value.versionId {
        assert OutcomeOf(s1.files[key], m, state).Diverted?;
        conflict := true;
        var conflictPath := NextConflictPath(path, o.device, clock.stamp);
        key := Key(o.account, o.space, conflictPath);
        var id := NewID();
        entry := BlankEntry(key, id);
        files := files[key := entry];
        assert Tables() == NewEntry(s1, key);
      } else {
        assert OutcomeOf(s1.files[key], m, state).Appended?;
      }
      r := LandVersion(o, m, key, entry, state, clock.now, conflict);
    }

    /** The end of `commitEntryLocked`. */
    method LandVersion(o: Origin, m: Manifest, key: Key, entry: FileEntry, state: EntryState, now: int, conflict: bool)
      returns (r: Result<CommitResponse>)
      requires key in files && entry == files[key]
      modifies this
      ensures (Tables(), r) == LandAt(old(Tables()), o, m, key, state, now, conflict)
    {
      hide StoreSpec.CountChunks, Install;
      ghost var s := Tables();
      var versionId := NewID();
      var v := CommittedVersion(o, m, key, entry.fileId, versionId, state, now);
      SetCurrent(key, entry, v);
      assert Tables() == Install(s, key, v);
      CountChunks(v);
      LandedCurrent(s, o, m, key, state, now);
      r := Ok(CommitResponse(StatusOk, files[key], Some(v), conflict, if conflict then key.name else "", None));
    }

    /** `ensureParentDirsLocked`; it never fails, its manifests naming no file id. */
    method EnsureParentDirs(o: Origin, path: string, modTime: int, clock: Clock)
      requires IsClean(path)
      modifies this
      ensures Tables() == EnsureParents(old(Tables()), o, Ancestors(path), modTime, clock)
    {
      hide StoreSpec.CommitEntry, IsClean, Join, Paths.Dir, Split;
      DirOfClean(path);
      var dir := Paths.Dir(path);
      if dir == "." || dir == "/" || dir == "" { return; }
      var parts := Split(dir);
      AncestorStep(path, 0);
      var current := "";
      for i := 0 to |parts|
        invariant current == if i == 0 then "" else Join(parts[..i])
        invariant EnsureParents(old(Tables()), o, Ancestors(path), modTime, clock)
               == EnsureParents(Tables(), o, Ancestors(path)[i..], modTime, clock)
      {
        AncestorStep(path, i);
        if current == "" { current := parts[i]; } else { current := current + "/" + parts[i]; }
        assert Ancestors(path)[i..][0] == current && Ancestors(path)[i..][1..] == Ancestors(path)[i + 1..];
        var key := Key(o.account, o.space, current);
        if !(key in files && !files[key].deleted && files[key].current.Some? && files[key].current.value.state.Dir?) {
          var _ := CommitEntry(o, DirManifest(current, modTime), current, Dir, clock);
        }
      }
    }

    /** `Commit` up to the point where it takes the lock for good; other requests may run in between. */
    method PrepareCommit(account: string, space: string, req: CommitRequest) returns (r: Result<Plan>)
      requires Valid()
      modifies this`accountChunks
      ensures r == CheckCommit(old(Tables()), account, space, req)
      ensures Tables() == if r.Ok? then GrantEmpty(old(Tables()), account, req.manifest, r.value) else old(Tables())
      ensures Valid()
      ensures r.Ok? ==> Ready(Tables(), account, req.manifest, r.value)
    {
      hide Inv, Conserved, Ready, IsClean, CleanRel, Verify;
      var m := req.manifest;
      if req.opId == "" { return Err("operation_id is required"); }
      if req.device == "" { return Err("device_id is required"); }
      if m.path == "" { return Err("manifest path is required"); }
      var state := if m.state.Unset? then File else m.state;
      if !state.File? && !state.Dir? { return Err("invalid manifest state"); }
      if state.File? && m.hash == "" { return Err("manifest hash is required"); }
      if state.File? && !IsHash(m.hash) { return Err("invalid file hash"); }
      if (account, space) !in spaces || !spaces[(account, space)] { return Err("sync space not found"); }
      var path := CleanRel(m.path);
      if path.Err? { return Err(path.error); }
      var plan := Plan(path.value, state);
      if state.File? {
        var verified := VerifyManifest(account, m);
        if verified.Err? { return Err(verified.error); }
      } else if m.hash != "" || m.size != 0 || |m.chunks| != 0 {
        return Err("directory manifest cannot include file content");
      }
      r := Ok(plan);
      ghost var s := old(Tables());
      assert CheckCommit(s, account, space, req) == Ok(plan);
      CheckCommitSound(s, account, space, req);
      GrantEmptyInv(s, account, m, plan);
      GrantEmptyGrows(s, account, m, plan);
      ReadyStable(s, GrantEmpty(s, account, m, plan), account, m, plan);
      SameCountsConserves(s, GrantEmpty(s, account, m, plan));
    }

    /** The part of `Commit` under the lock. */
    method FinishCommit(account: string, space: string, req: CommitRequest, plan: Plan, clock: Clock)
      returns (r: Result<CommitResponse>)
      requires Valid() && Ready(Tables(), account, req.manifest, plan)
      modifies this
      ensures (Tables(), r) == CommitLocked(old(Tables()), account, space, req, plan, clock)
      ensures Valid()
    {
      hide Inv, Conserved, IsClean, StoreSpec.CommitEntry, EnsureParents, Ancestors;
      CommitLockedInv(Tables(), account, space, req, plan, clock);
      CommitLockedConserves(Tables(), account, space, req, plan, clock);
      var o := RequestOrigin(account, space, req.device, req.root);
      EnsureParentDirs(o, plan.path, req.manifest.modTime, clock);
      var opKey := Key(account, space, req.opId);
      if opKey in operations { return Ok(operations[opKey]); }
      r := CommitEntry(o, req.manifest, plan.path, plan.state, clock);
      if r.Ok? { operations := operations[opKey := r.value]; }
    }

    /** `Commit` when nothing runs between its halves. */
    method Commit(account: string, space: string, req: CommitRequest, clock: Clock)
      returns (r: Result<CommitResponse>)
      requires Valid()
      modifies this
      ensures (Tables(), r) == StoreSpec.Commit(old(Tables()), account, space, req, clock)
      ensures Valid()
    {
      hide Inv, Conserved, Ready, CheckCommit, GrantEmpty, CommitLocked;
      var prepared := PrepareCommit(account, space, req);
      if prepared.Err? { return Err(prepared.error); }
      r := FinishCommit(account, space, req, prepared.value, clock);
    }

    // -------------------------------------------------------------- delete

    method Delete(account: string, space: string, req: DeleteRequest, clock: Clock)
      returns (r: Result<CommitResponse>)
      requires Valid()
      modifies this
      ensures (Tables(), r) == StoreSpec.Delete(old(Tables()), account, space, req, clock)
      ensures Valid()
    {
      hide Inv, Conserved, CleanRel, Install, Tombstone;
      DeleteInv(Tables(), account, space, req, clock);
      DeleteConserves(Tables(), account, space, req, clock);
      if req.opId == "" { return Err("operation_id is required"); }
      if req.device == "" { return Err("device_id is required"); }
      if req.path == "" { return Err("path is required"); }
      if (account, space) !in spaces || !spaces[(account, space)] { return Err("sync space not found"); }
      var opKey := Key(account, space, req.opId);
      if opKey in operations { return Ok(operations[opKey]); }
      var path := CleanRel(req.path);
      if path.Err? { return Err(path.error); }
      var key := Key(account, space, path.value);
      if key !in files { return Err("path not found"); }
      var entry := files[key];
      if req.fileId != NoId && req.fileId != entry.fileId { return Err("file_id mismatch"); }
      if entry.current.Some? && req.base != entry.current.value.versionId {
        var resp := CommitResponse(StatusConflict, entry, None, true, "", entry.current);
        operations := operations[opKey := resp];
        return Ok(resp);
      }
      if entry.current.Some? && entry.current.value.state.Deleted? {
        var resp := CommitResponse(StatusOk, entry, entry.current, false, "", None);
        operations := operations[opKey := resp];
        return Ok(resp);
      }
      ghost var s := Tables();
      var versionId := NewID();
      var o := RequestOrigin(account, space, req.device, req.root);
      var v := Tombstone(o, key, entry, req.base, versionId, clock.now);
      SetCurrent(key, entry, v);
      assert Tables() == Install(s, key, v);
      InstallCurrent(s, key, v);
      var resp := CommitResponse(StatusOk, files[key], Some(v), false, "", None);
      operations := operations[opKey := resp];
      r := Ok(resp);
    }

    // -------------------------------------------------------------- trash

    /** `pruneTrashLocked`: look at every entry, in any order. */
    method PruneTrash(now: int) returns (changed: bool)
      requires Valid()
      modifies this`files
      ensures Tables() == Prune(old(Tables()), now)
      ensures changed <==> files != old(files)
      ensures Valid()
    {
      hide Inv, Conserved;
      PruneInv(Tables(), now);
      SameCountsConserves(Tables(), Prune(Tables(), now));
      changed := false;
      ghost var all := files;
      var todo := files.Keys;
      while todo != {}
        invariant todo <= all.Keys
        invariant files == map k | k in all && (k in todo || !Expired(all[k], now)) :: all[k]
        invariant changed <==> exists k :: k in all && k !in todo && Expired(all[k], now)
        decreases todo
      {
        var key :| key in todo;
        var entry := files[key];
        todo := todo - {key};
        if entry.deleted && entry.current.Some? && entry.current.value.state.Deleted?
           && entry.current.value.deletedAt > 0
           && entry.current.value.deletedAt + TRASH_RETENTION_SECONDS <= now
        {
          assert Expired(all[key], now) && all[key] == entry;
          files := files - {key};
          changed := true;
        }
      }
      if changed {
        ghost var k :| k in all && Expired(all[k], now);
        assert k !in files;
      } else {
        assert files == all;
      }
    }

    predicate Listed(account: string, now: int, k: Key)
      reads this`files
    {
      k in files && files[k].account == account && InTrash(files[k])
      && !files[k].current.value.deletedState.Dir?
      && files[k].current.value.deletedAt + TRASH_RETENTION_SECONDS > now
    }

    function DeletedAt(k: Key): int
      reads this`files
    {
      if k in files && files[k].current.Some? then files[k].current.value.deletedAt else 0
    }

    /** A list of trash entries for distinct keys, newest first, that leaves out only older ones. */
    ghost predicate NewestFirst(account: string, now: int, listed: seq<TrashEntry>, keys: seq<Key>, max: nat)
      reads this`files
    {
      |keys| == |listed| <= max
      && (forall i | 0 <= i < |listed| ::
            Listed(account, now, keys[i]) && listed[i] == TrashEntryFromVersion(files[keys[i]].current.value))
      && (forall i, j | 0 <= i < j < |listed| :: keys[i] != keys[j] && DeletedAt(keys[i]) >= DeletedAt(keys[j]))
      && (forall k | Listed(account, now, k) && k !in keys ::
            |listed| == max && forall i | 0 <= i < |listed| :: DeletedAt(k) <= DeletedAt(keys[i]))
    }

    /** `ListTrash`: prune, then list the newest unexpired tombstones that are not directories'. */
    method ListTrash(account: string, limit: int, now: int) returns (listed: seq<TrashEntry>, ghost keys: seq<Key>)
      requires Valid()
      modifies this`files
      ensures Tables() == Prune(old(Tables()), now) && Valid()
      ensures NewestFirst(account, now, listed, keys, if limit <= 0 then 200 else limit)
    {
      hide Inv, Conserved, NewestFirst;
      var _ := PruneTrash(now);
      listed, keys := SelectTrash(account, if limit <= 0 then 200 else limit, now);
    }

    method SelectTrash(account: string, max: nat, now: int) returns (listed: seq<TrashEntry>, ghost keys: seq<Key>)
      ensures NewestFirst(account, now, listed, keys, max)
    {
      listed, keys := [], [];
      var todo := set k | k in files && Listed(account, now, k);
      while todo != {} && |listed| < max
        invariant |keys| == |listed| <= max
        invariant forall k :: k in todo <==> Listed(account, now, k) && k !in keys
        invariant forall i | 0 <= i < |listed| ::
                    Listed(account, now, keys[i]) && listed[i] == TrashEntryFromVersion(files[keys[i]].current.value)
        invariant forall i, j | 0 <= i < j < |listed| :: keys[i] != keys[j] && DeletedAt(keys[i]) >= DeletedAt(keys[j])
        invariant forall k, i | k in todo && 0 <= i < |listed| :: DeletedAt(k) <= DeletedAt(keys[i])
        decreases todo
      {
        var newest := NewestOf(todo);
        listed := listed + [TrashEntryFromVersion(files[newest].current.value)];
        keys := keys + [newest];
        todo := todo - {newest};
      }
    }

    method NewestOf(todo: set<Key>) returns (newest: Key)
      requires todo != {}
      ensures newest in todo && forall k | k in todo :: DeletedAt(k) <= DeletedAt(newest)
    {
      newest :| newest in todo;
      var rest := todo - {newest};
      while rest != {}
        invariant newest in todo && rest <= todo
        invariant forall k | k in todo && k !in rest :: DeletedAt(k) <= DeletedAt(newest)
        decreases rest
      {
        var k :| k in rest;
        rest := rest - {k};
        if DeletedAt(k) > DeletedAt(newest) { newest := k; }
      }
    }

    /** The search of `RestoreTrash` for what to restore, newest version first. */
    method FindSource(history: seq<FileVersion>, tombstone: FileVersion) returns (source: Option<FileVersion>)
      ensures source == RestoreSource(history, tombstone)
    {
      source := None;
      var i := |history|;
      while i > 0 && source.None?
        invariant 0 <= i <= |history|
        invariant source.None? ==> NewestFile(history, |history|) == NewestFile(history, i)
        invariant source.Some? ==> NewestFile(history, |history|) == source
      {
        i := i - 1;
        if history[i].state.File? { source := Some(history[i]); }
      }
      if source.None? && tombstone.hash != "" { source := Some(tombstone.(state := File)); }
    }

    method RestoreTrash(account: string, req: RestoreRequest, actor: string, clock: Clock)
      returns (r: Result<CommitResponse>)
      requires Valid()
      modifies this
      ensures (Tables(), r) == Restore(old(Tables()), account, req, actor, clock)
      ensures Valid()
    {
      hide Inv, Conserved, CleanRel, Install, RestoreDevice, Prune, RestoreSource, RestoredVersion, LandResponse;
      RestoreInv(Tables(), account, req, actor, clock);
      RestoreConserves(Tables(), account, req, actor, clock);
      var space := TrimSpace(req.space);
      if space == "" { space := "default"; }
      if (account, space) !in spaces || !spaces[(account, space)] { return Err("sync space not found"); }
      var path := CleanRel(req.path);
      if path.Err? { return Err(path.error); }
      if req.fileId == NoId { return Err("file_id is required"); }
      var _ := PruneTrash(clock.now);
      ghost var s1 := Tables();
      var key := Key(account, space, path.value);
      if key !in files || files[key].fileId != req.fileId || !files[key].deleted || files[key].current.None?
         || !files[key].current.value.state.Deleted?
      {
        return Err("trash entry not found");
      }
      var entry := files[key];
      var tombstone := entry.current.value;
      if tombstone.deletedAt + TRASH_RETENTION_SECONDS <= clock.now { return Err("trash entry has expired"); }
      var history := if req.fileId in versions then versions[req.fileId] else [];
      var source := FindSource(history, tombstone);
      if source.None? { return Err("restorable version not found"); }
      r := InstallRestored(account, space, key, source.value, RestoreDevice(actor), clock.now);
    }

    /** The end of `RestoreTrash`. */
    method InstallRestored(account: string, space: string, key: Key, source: FileVersion, device: string, now: int)
      returns (r: Result<CommitResponse>)
      requires key in files && files[key].current.Some?
      modifies this
      ensures var s := old(Tables());
              var v := RestoredVersion(account, space, key, s.files[key], source, s.files[key].current.value.versionId,
                                       Issued(s.nextId), device, now);
              Tables() == Install(s, key, v).(restored := s.restored + {v.versionId})
              && key in files && r == Ok(LandResponse(Tables(), key, false))
    {
      hide Install;
      ghost var s := Tables();
      var entry := files[key];
      var versionId := NewID();
      var v := RestoredVersion(account, space, key, entry, source, entry.current.value.versionId, versionId, device,
                               now);
      SetCurrent(key, entry, v);
      assert Tables() == Install(s, key, v);
      InstallCurrent(s, key, v);
      InstallNextId(s, key, v);
      restored := restored + {versionId};
      r := Ok(CommitResponse(StatusOk, files[key], Some(v), false, "", None));
    }

    method SetSpace(account: string, space: string, active: bool)
      requires Valid()
      modifies this`spaces
      ensures Tables() == old(Tables()).(spaces := old(spaces)[(account, space) := active])
      ensures Valid()
    {
      hide Inv, Conserved;
      SpacesInv(Tables(), spaces[(account, space) := active]);
      SameCountsConserves(Tables(), Tables().(spaces := spaces[(account, space) := active]));
      spaces := spaces[(account, space) := active];
    }
  }

  lemma MoreChunkGrants(account: string, chunks: seq<ChunkRef>, i: nat)
    requires i < |chunks|
    ensures ChunkGrants(account, chunks[..i + 1]) == ChunkGrants(account, chunks[..i]) + {(account, chunks[i].hash)}
  {
  }

  lemma LandedCurrent(s: Server, o: Origin, m: Manifest, key: Key, state: EntryState, now: int)
    requires key in s.files
    ensures var v := CommittedVersion(o, m, key, s.files[key].fileId, Issued(s.nextId), state, now);
            var s' := Land(s, o, m, key, state, now);
            key in s'.files && s'.files[key].current == Some(v)
  {
  }
}
