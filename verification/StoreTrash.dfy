/** Deleting, pruning and restoring: the invariant, and the retention window of the trash. */
module StoreTrash {
  import opened Model
  import opened Paths
  import opened StoreSpec
  import opened StoreInvariant
  import opened StoreCommit

  // ---------------------------------------------------------------- delete

  lemma InstallTombstoneInv(s: Server, key: Key, o: Origin, base: Id, now: int)
    requires Inv(s) && key in s.files && key.account == o.account && key.space == o.space
    requires s.files[key].current.Some? ==>
               base == s.files[key].current.value.versionId && !s.files[key].current.value.state.Deleted?
    ensures var v := Tombstone(o, key, s.files[key], base, Issued(s.nextId), now);
            Inv(Install(s, key, v)) && InHistory(Install(s, key, v).versions, v)
  {
    hide Install, HistoriesOk, UniqueVersionIds, LogOk, WindowOk, ReplayOk, ContentOk, OpsOk, ChunksOk;
    var v := Tombstone(o, key, s.files[key], base, Issued(s.nextId), now);
    assert Fits(s, key, v) by {
      if s.files[key].current.Some? { CurrentState(s, key); }
    }
    InstallInv(s, key, v);
  }

  lemma CurrentState(s: Server, key: Key)
    requires Inv(s) && key in s.files && s.files[key].current.Some?
    ensures var p := s.files[key].current.value; p.state.File? || p.state.Dir? || p.state.Deleted?
  {
  }

  lemma DeleteInv(s: Server, account: string, space: string, req: DeleteRequest, clock: Clock)
    requires Inv(s)
    ensures Inv(Delete(s, account, space, req, clock).0)
  {
    hide Inv, Install, Tombstone, ResponseOk, InHistory, SpaceActive, CleanRel;
    var opKey := Key(account, space, req.opId);
    if CleanRel(req.path).Ok? {
      var key := Key(account, space, CleanRel(req.path).value);
      if key in s.files {
        var e := s.files[key];
        if e.current.Some? && req.base != e.current.value.versionId {
          ConflictResponseOk(s, opKey, e);
          RecordInv(s, opKey, CommitResponse(StatusConflict, e, None, true, "", e.current));
        } else if e.current.Some? && e.current.value.state.Deleted? {
          CurrentResponseOk(s, opKey, key);
          RecordInv(s, opKey, LandResponse(s, key, false));
        } else {
          var o := RequestOrigin(account, space, req.device, req.root);
          var v := Tombstone(o, key, e, req.base, Issued(s.nextId), clock.now);
          InstallTombstoneInv(s, key, o, req.base, clock.now);
          InstallCurrent(s, key, v);
          CurrentResponseOk(Install(s, key, v), opKey, key);
          RecordInv(Install(s, key, v), opKey, LandResponse(Install(s, key, v), key, false));
        }
      }
    }
  }

  lemma InstallCurrent(s: Server, key: Key, v: FileVersion)
    requires key in s.files
    ensures var s' := Install(s, key, v);
            s'.files == s.files[key := WithCurrent(s.files[key], v)] && s'.ops == s.ops && s'.spaces == s.spaces
  {
  }

  lemma ConflictResponseOk(s: Server, op: Key, e: FileEntry)
    ensures ResponseOk(s.versions, op, CommitResponse(StatusConflict, e, None, true, "", e.current))
  {
  }

  lemma CurrentResponseOk(s: Server, op: Key, key: Key)
    requires Inv(s) && key in s.files && s.files[key].current.Some? && op.account == key.account
             && op.space == key.space
    ensures ResponseOk(s.versions, op, LandResponse(s, key, false))
  {
  }

  // ---------------------------------------------------------------- prune

  /** What is pruned was not live. */
  lemma PruneLive(s: Server, now: int)
    requires FilesOk(s.files, s.versions, s.nextId)
    ensures LiveFiles(Prune(s, now).files) == LiveFiles(s.files)
  {
    hide IsClean;
    forall k | k in s.files && Expired(s.files[k], now) ensures !Live(s.files[k]) {
      assert EntryOk(s.versions, k, s.files[k], s.nextId);
    }
  }

  lemma PruneFiles(s: Server, now: int)
    requires FilesOk(s.files, s.versions, s.nextId) && DistinctFileIds(s.files) && LastOk(s.log, s.files)
    ensures var files' := Prune(s, now).files;
            FilesOk(files', s.versions, s.nextId) && DistinctFileIds(files') && LastOk(s.log, files')
  {
    hide EntryOk, Expired, LastAt;
  }

  lemma PruneInv(s: Server, now: int)
    requires Inv(s)
    ensures Inv(Prune(s, now))
  {
    PruneLive(s, now);
    PruneFiles(s, now);
    hide HistoriesOk, UniqueVersionIds, FilesOk, DistinctFileIds, LogOk, WindowOk, ChunksOk, ContentOk, OpsOk, LastOk,
         LiveFiles, Replay;
  }

  // ---------------------------------------------------------------- restore

  lemma {:induction false} NewestFileIs(h: seq<FileVersion>, n: nat)
    requires n <= |h|
    ensures match NewestFile(h, n)
            case None => forall i | 0 <= i < n :: !h[i].state.File?
            case Some(v) => exists i :: 0 <= i < n && h[i] == v && v.state.File?
                                        && forall j | i < j < n :: !h[j].state.File?
  {
    if n > 0 && !h[n - 1].state.File? {
      NewestFileIs(h, n - 1);
      if NewestFile(h, n - 1).Some? {
        var i :| 0 <= i < n - 1 && h[i] == NewestFile(h, n - 1).value && h[i].state.File?
                 && forall j | i < j < n - 1 :: !h[j].state.File?;
        assert forall j | i < j < n :: !h[j].state.File?;
      }
    }
  }

  /** A tombstone carries a digest only if the version before it is a file, so the branch of `RestoreTrash`
      that copies the tombstone's own columns is never taken. */
  lemma FallbackUnreached(s: Server, key: Key)
    requires Inv(s) && key in s.files && InTrash(s.files[key])
    ensures var e := s.files[key];
            RestoreSource(History(s.versions, e.fileId), e.current.value)
            == NewestFile(History(s.versions, e.fileId), |History(s.versions, e.fileId)|)
  {
  }

  /** The source of a restore is a stored version of the same file whose content is available. */
  lemma SourceAvailable(s: Server, key: Key)
    requires Inv(s) && key in s.files && InTrash(s.files[key])
    requires RestoreSource(History(s.versions, s.files[key].fileId), s.files[key].current.value).Some?
    ensures var source := RestoreSource(History(s.versions, s.files[key].fileId), s.files[key].current.value).value;
            source.state.File? && source.account == key.account && Available(s.chunks, s.grants, source)
  {
    hide UniqueVersionIds, LogOk, WindowOk, ReplayOk, OpsOk, ChunksOk, Available, NewestFile, RestoreSource;
    var e := s.files[key];
    FallbackUnreached(s, key);
    assert EntryOk(s.versions, key, e, s.nextId);
    var h := s.versions[e.fileId];
    assert HistoryOk(e.fileId, h, s.nextId);
    NewestFileIs(h, |h|);
    var i :| 0 <= i < |h| && h[i] == NewestFile(h, |h|).value && h[i].state.File?;
    assert VersionOk(e.fileId, h[0], h[i], s.nextId);
    assert VersionOk(e.fileId, h[0], h[|h| - 1], s.nextId);
  }

  /** What the restored version takes from its source. */
  lemma RestoredAvailable(s: Server, account: string, space: string, key: Key, e: FileEntry, source: FileVersion,
                          base: Id, versionId: Id, device: string, now: int)
    requires Available(s.chunks, s.grants, source) && source.account == account
    ensures Available(s.chunks, s.grants,
                      RestoredVersion(account, space, key, e, source, base, versionId, device, now))
  {
  }

  lemma MarkRestored(s: Server, id: Id)
    requires Inv(s) && id.Issued? && id.n < s.nextId
    ensures Inv(s.(restored := s.restored + {id}))
  {
  }

  lemma RestoreInv(s: Server, account: string, req: RestoreRequest, actor: string, clock: Clock)
    requires Inv(s)
    ensures Inv(Restore(s, account, req, actor, clock).0)
  {
    hide Inv, Install, SpaceActive, CleanRel, Prune, RestoreSource, RestoreDevice, Available, RestoreSpace;
    var s1 := Prune(s, clock.now);
    PruneInv(s, clock.now);
    if CleanRel(req.path).Ok? {
      var key := Key(account, RestoreSpace(req), CleanRel(req.path).value);
      if key in s1.files && InTrash(s1.files[key]) && s1.files[key].fileId == req.fileId {
        var e := s1.files[key];
        match RestoreSource(History(s1.versions, req.fileId), e.current.value)
        case None =>
        case Some(source) =>
          var v := RestoredVersion(account, key.space, key, e, source, e.current.value.versionId,
                                   Issued(s1.nextId), RestoreDevice(actor), clock.now);
          SourceAvailable(s1, key);
          RestoredAvailable(s1, account, key.space, key, e, source, e.current.value.versionId,
                            Issued(s1.nextId), RestoreDevice(actor), clock.now);
          InstallInv(s1, key, v);
          InstallNextId(s1, key, v);
          MarkRestored(Install(s1, key, v), v.versionId);
      }
    }
  }

  lemma InstallNextId(s: Server, key: Key, v: FileVersion)
    requires key in s.files
    ensures Install(s, key, v).nextId == s.nextId + 1 && Install(s, key, v).restored == s.restored
  {
  }

  // ---------------------------------------------------------------- chunks and spaces

  lemma PutChunkInv(s: Server, hash: string, data: Bytes)
    requires Inv(s)
    ensures Inv(PutChunk(s, hash, data).0)
  {
    hide HistoriesOk, UniqueVersionIds, FilesOk, LogOk, WindowOk, ReplayOk, OpsOk;
    var s' := PutChunk(s, hash, data).0;
    forall id, i | id in s'.versions && 0 <= i < |s'.versions[id]| && s'.versions[id][i].state.File?
      ensures Available(s'.chunks, s'.grants, s'.versions[id][i])
    {
      assert Available(s.chunks, s.grants, s.versions[id][i]);
      AssembleStable(s.chunks, s'.chunks, s.versions[id][i].chunks);
    }
  }

  lemma GrantInv(s: Server, account: string, hash: string)
    requires Inv(s)
    ensures Inv(GrantAccountChunk(s, account, hash).0)
  {
  }

  lemma SpacesInv(s: Server, spaces: map<(string, string), bool>)
    requires Inv(s)
    ensures Inv(s.(spaces := spaces))
  {
  }
}
