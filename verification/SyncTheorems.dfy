/** The main statements, for every list of steps from an empty server and clients without records. */
module SyncTheorems {
  import opened Model
  import opened Paths
  import opened StoreSpec
  import opened StoreInvariant
  import opened StoreGrowth
  import opened StoreCommit
  import opened NoLostUpdate
  import opened SyncProtocol
  import opened SyncSafety
  import opened EventWindow
  import opened Redelivery
  import ChunkRefs

  lemma Reached(w: World, steps: seq<Step>)
    requires Initial(w)
    ensures WorldOk(Run(w, steps))
  {
    hide WorldOk, Run;
    InitialOk(w);
    RunOk(w, steps);
  }

  /** Every record of every client names a version the server stores for that file id, at the record's path. */
  lemma RecordsNameVersions(w: World, steps: seq<Step>, id: nat, path: string)
    requires Initial(w)
    requires var w' := Run(w, steps); id in w'.locals && path in w'.locals[id].records
    ensures var w' := Run(w, steps);
            id in w'.clients
            && Names(w'.server.versions, Key(w'.clients[id].account, w'.clients[id].space, path),
                     w'.locals[id].records[path].fileId, w'.locals[id].records[path].versionId)
  {
    Reached(w, steps);
    var w' := Run(w, steps);
    hide Run, Inv, ChunkRefs.Conserved, SentOk, OpsAnswer, RepliesOk, CheckedOk, InboxOk, Names;
    assert RecordsOk(w'.server.versions, w'.clients[id], w'.locals[id].records);
  }

  /** So the paths of its records are canonical, as `PushStores` and `RecordsInStep` ask. */
  lemma RecordedPathsAreClean(w: World, steps: seq<Step>, id: nat, path: string)
    requires Initial(w)
    requires var w' := Run(w, steps); id in w'.locals && path in w'.locals[id].records
    ensures IsClean(path)
  {
    hide Run, IsClean, Inv;
    Reached(w, steps);
    RecordsNameVersions(w, steps, id, path);
    var w' := Run(w, steps);
    ServerOf(w');
    NamedIsClean(w'.server, Key(w'.clients[id].account, w'.clients[id].space, path),
                 w'.locals[id].records[path].fileId, w'.locals[id].records[path].versionId);
  }

  lemma ServerOf(w: World)
    requires WorldOk(w)
    ensures Inv(w.server)
  {
  }

  lemma NamedIsClean(s: Server, key: Key, fileId: Id, versionId: Id)
    requires Inv(s) && Names(s.versions, key, fileId, versionId)
    ensures IsClean(key.name)
  {
    hide UniqueVersionIds, FilesOk, LogOk, WindowOk, ReplayOk, ContentOk, OpsOk, ChunksOk, IsClean;
    assert HistoryOk(fileId, s.versions[fileId], s.nextId);
  }

  /** A commit a client made from a record, handled for the first time at any later moment, is appended right
      after the version it was based on, diverted, refused, or answered with the directory that is there. */
  lemma CommitsFromRecords(w: World, steps: seq<Step>, opId: string, plan: Plan, clock: Clock)
    requires Initial(w)
    requires var w' := Run(w, steps);
             IsSentCommit(w', opId) && (opId, plan) in w'.checked
             && w'.sent[opId].message.commit.manifest.fileId != NoId
             && var c := w'.clients[w'.sent[opId].client]; Key(c.account, c.space, opId) !in w'.server.ops
    ensures var w' := Run(w, steps);
            var c := w'.clients[w'.sent[opId].client];
            var req := w'.sent[opId].message.commit;
            var key := Key(c.account, c.space, plan.path);
            var (s', r) := CommitLocked(w'.server, c.account, c.space, req, plan, clock);
            Ends(OutcomeBefore(w'.server, key, req.manifest, plan.state), w'.server, s', key, req.manifest,
                 plan.state, r)
            && Next(w', HandleCommit(opId, plan, clock)).server == s'
  {
    hide *;
    Reached(w, steps);
    HandledFirst(Run(w, steps), opId, plan, clock);
  }

  lemma HandledFirst(w: World, opId: string, plan: Plan, clock: Clock)
    requires WorldOk(w) && IsSentCommit(w, opId) && (opId, plan) in w.checked
    requires w.sent[opId].message.commit.manifest.fileId != NoId
    requires var c := w.clients[w.sent[opId].client]; Key(c.account, c.space, opId) !in w.server.ops
    ensures var c := w.clients[w.sent[opId].client];
            var req := w.sent[opId].message.commit;
            var key := Key(c.account, c.space, plan.path);
            var (s', r) := CommitLocked(w.server, c.account, c.space, req, plan, clock);
            Ends(OutcomeBefore(w.server, key, req.manifest, plan.state), w.server, s', key, req.manifest, plan.state, r)
            && Next(w, HandleCommit(opId, plan, clock)).server == s'
  {
    hide Inv, ChunkRefs.Conserved, OpsAnswer, RepliesOk, LocalsOk, Names, Ends, Ready, CommitLocked, OutcomeBefore,
         IsClean;
    var c := w.clients[w.sent[opId].client];
    var req := w.sent[opId].message.commit;
    assert MessageOk(w.server.versions, c, opId, w.sent[opId].message);
    assert (opId, plan).0 in w.sent && (opId, plan).1.path == req.manifest.path;
    CommitFromRecord(w.server, c.account, c.space, req, plan, clock);
  }

  /** A first upload, which names no file, handled for the first time at any later moment: the only version of a new
      entry, or what the entry there has come to be in the meantime decides. */
  lemma FirstUploads(w: World, steps: seq<Step>, opId: string, plan: Plan, clock: Clock)
    requires Initial(w)
    requires var w' := Run(w, steps);
             IsSentCommit(w', opId) && (opId, plan) in w'.checked
             && w'.sent[opId].message.commit.manifest.fileId == NoId
             && var c := w'.clients[w'.sent[opId].client]; Key(c.account, c.space, opId) !in w'.server.ops
    ensures var w' := Run(w, steps);
            var c := w'.clients[w'.sent[opId].client];
            var req := w'.sent[opId].message.commit;
            var (s', r) := CommitLocked(w'.server, c.account, c.space, req, plan, clock);
            EndsUnnamed(w'.server, s', Key(c.account, c.space, plan.path), req.manifest, plan.state, r)
            && Next(w', HandleCommit(opId, plan, clock)).server == s'
  {
    hide *;
    Reached(w, steps);
    FirstUploadHandled(Run(w, steps), opId, plan, clock);
  }

  lemma FirstUploadHandled(w: World, opId: string, plan: Plan, clock: Clock)
    requires WorldOk(w) && IsSentCommit(w, opId) && (opId, plan) in w.checked
    requires w.sent[opId].message.commit.manifest.fileId == NoId
    requires var c := w.clients[w.sent[opId].client]; Key(c.account, c.space, opId) !in w.server.ops
    ensures var c := w.clients[w.sent[opId].client];
            var req := w.sent[opId].message.commit;
            var (s', r) := CommitLocked(w.server, c.account, c.space, req, plan, clock);
            EndsUnnamed(w.server, s', Key(c.account, c.space, plan.path), req.manifest, plan.state, r)
            && Next(w, HandleCommit(opId, plan, clock)).server == s'
  {
    hide Inv, ChunkRefs.Conserved, OpsAnswer, RepliesOk, LocalsOk, Names, EndsUnnamed, Ready, CommitLocked, IsClean;
    var c := w.clients[w.sent[opId].client];
    assert MessageOk(w.server.versions, c, opId, w.sent[opId].message);
    assert (opId, plan).0 in w.sent;
    CommitWithoutId(w.server, c.account, c.space, w.sent[opId].message.commit, plan, clock);
  }

  /** Per-file history is linear: versions chain by base version, no version id occurs twice anywhere, an
      entry's current version is the last of its history, and no two entries share a history. */
  lemma LinearHistories(w: World, steps: seq<Step>)
    requires Initial(w)
    ensures var s := Run(w, steps).server;
            (forall id, i | id in s.versions && 0 < i < |s.versions[id]| ::
               s.versions[id][i].base == s.versions[id][i - 1].versionId)
            && UniqueVersionIds(s.versions)
            && (forall k | k in s.files && s.files[k].current.Some? ::
                  s.files[k].fileId in s.versions && |s.versions[s.files[k].fileId]| > 0
                  && s.files[k].current.value == s.versions[s.files[k].fileId][|s.versions[s.files[k].fileId]| - 1]
                  && s.files[k].latest == s.files[k].current.value.versionId
                  && (s.files[k].deleted <==> s.files[k].current.value.state.Deleted?))
            && (forall k | k in s.files && s.files[k].current.None? :: s.files[k].fileId !in s.versions)
            && (forall k, k' | k in s.files && k' in s.files && s.files[k].fileId == s.files[k'].fileId :: k == k')
  {
    Reached(w, steps);
    var s := Run(w, steps).server;
    hide Run, ChunkRefs.Conserved, SentOk, OpsAnswer, RepliesOk, CheckedOk, LocalsOk, LogOk, WindowOk, ReplayOk,
         ContentOk, OpsOk, ChunksOk;
    forall id, i | id in s.versions && 0 < i < |s.versions[id]|
      ensures s.versions[id][i].base == s.versions[id][i - 1].versionId
    {
      assert HistoryOk(id, s.versions[id], s.nextId);
      assert Follows(s.versions[id][i - 1], s.versions[id][i]);
    }
    forall k | k in s.files ensures EntryOk(s.versions, k, s.files[k], s.nextId) {}
  }

  /** Replaying the untrimmed log gives the live files, for each path of each account and space. */
  lemma LogReplays(w: World, steps: seq<Step>, key: Key)
    requires Initial(w)
    ensures var s := Run(w, steps).server;
            Replay(s.log) == LiveFiles(s.files)
            && (if key in s.files && s.files[key].current.Some? then LastAt(s.log, key) == s.files[key].current
                else LastAt(s.log, key).None? || LastAt(s.log, key).value.state.Deleted?)
  {
    Reached(w, steps);
    var s := Run(w, steps).server;
    hide Run, ChunkRefs.Conserved, SentOk, OpsAnswer, RepliesOk, CheckedOk, LocalsOk, HistoriesOk, UniqueVersionIds,
         FilesOk, LogOk, WindowOk, ContentOk, OpsOk, ChunksOk, DistinctFileIds;
    LogTellsFiles(s, key);
  }

  /** The events of the log are numbered from 1 to the last sequence number; the window is its newest part and
      within the bound. */
  lemma WindowIsNewest(w: World, steps: seq<Step>)
    requires Initial(w)
    ensures var s := Run(w, steps).server;
            |s.log| == s.lastSeq && (forall i | 0 <= i < |s.log| :: s.log[i].seqNo == i + 1)
            && |s.events| == (if s.lastSeq <= MAX_EVENTS then s.lastSeq else MAX_EVENTS)
            && s.events == s.log[s.lastSeq - |s.events|..]
  {
    Reached(w, steps);
    hide Run, ChunkRefs.Conserved, SentOk, OpsAnswer, RepliesOk, CheckedOk, LocalsOk, HistoriesOk, UniqueVersionIds,
         FilesOk, LogOk, ReplayOk, ContentOk, OpsOk, ChunksOk, DistinctFileIds;
  }

  /** Any cursor is answered by a suffix of what the whole log would give, and by all of it from the window on. */
  lemma CursorsAnswered(w: World, steps: seq<Step>, account: string, space: string, after: nat)
    requires Initial(w)
    ensures var s := Run(w, steps).server;
            var all := FilterEvents(s.log, account, space, after);
            var kept := EventsAfter(s, account, space, after);
            |kept| <= |all| && kept == all[|all| - |kept|..]
            && (after >= s.lastSeq - |s.events| ==> kept == all)
  {
    Reached(w, steps);
    var s := Run(w, steps).server;
    hide Run, ChunkRefs.Conserved, SentOk, OpsAnswer, RepliesOk, CheckedOk, LocalsOk, HistoriesOk, UniqueVersionIds,
         FilesOk, LogOk, ReplayOk, ContentOk, OpsOk, ChunksOk, DistinctFileIds, EventsAfter, FilterEvents;
    WindowAnswers(s, account, space, after);
    if after >= s.lastSeq - |s.events| { WindowRefinesLog(s, account, space, after); }
  }

  /** Every stored file version, restored ones included, still joins to content of its digest and size, from
      chunks its account may read; and chunk references are conserved. */
  lemma ContentAndReferences(w: World, steps: seq<Step>, hash: string)
    requires Initial(w)
    ensures var s := Run(w, steps).server;
            (forall id, i | id in s.versions && 0 <= i < |s.versions[id]| && s.versions[id][i].state.File? ::
               Available(s.chunks, s.grants, s.versions[id][i]))
            && ChunkRefs.RefCount(s.refs, hash) + ChunkRefs.TotalUses(s.versions, hash, ChunkRefs.Only(s.restored))
               == ChunkRefs.TotalUses(s.versions, hash, ChunkRefs.Everything)
  {
    Reached(w, steps);
    hide Run, SentOk, OpsAnswer, RepliesOk, CheckedOk, LocalsOk, HistoriesOk, UniqueVersionIds, FilesOk, LogOk,
         WindowOk, ReplayOk, OpsOk, ChunksOk, DistinctFileIds, Available, ChunkRefs.TotalUses;
  }

  /** Every stored path, implicit parents and conflict names included, is a fixed point of `CleanRel`: no client
      refuses an event for its path. */
  lemma StoredPathsAreClean(w: World, steps: seq<Step>)
    requires Initial(w)
    ensures var s := Run(w, steps).server;
            (forall k | k in s.files :: CleanRel(s.files[k].path) == Ok(s.files[k].path))
            && (forall id, i | id in s.versions && 0 <= i < |s.versions[id]| ::
                  CleanRel(s.versions[id][i].path) == Ok(s.versions[id][i].path))
            && (forall i | 0 <= i < |s.log| :: CleanRel(s.log[i].version.path) == Ok(s.log[i].version.path))
  {
    Reached(w, steps);
    var s := Run(w, steps).server;
    hide Run, ChunkRefs.Conserved, SentOk, OpsAnswer, RepliesOk, CheckedOk, LocalsOk, UniqueVersionIds, WindowOk,
         ReplayOk, ContentOk, OpsOk, ChunksOk, DistinctFileIds, CleanRel, IsClean, Follows, Starts;
    forall k | k in s.files ensures CleanRel(s.files[k].path) == Ok(s.files[k].path) {
      assert EntryOk(s.versions, k, s.files[k], s.nextId);
      CleanRelFixpoint(s.files[k].path);
    }
    forall id, i | id in s.versions && 0 <= i < |s.versions[id]|
      ensures CleanRel(s.versions[id][i].path) == Ok(s.versions[id][i].path)
    {
      assert HistoryOk(id, s.versions[id], s.nextId);
      assert VersionOk(id, s.versions[id][0], s.versions[id][i], s.nextId);
      CleanRelFixpoint(s.versions[id][i].path);
    }
  }

  /** A request answered once and delivered again after any run is answered the same, while its space is
      active; a repeated deletion changes nothing, a repeated commit changes nothing exactly when the
      ancestors of its path are live directories.  The commit was checked in `s0` and locked in `s1`, with
      anything in between; see `AtLeastOnce` for the steps of the protocol. */
  lemma DeliveredAgain(s0: Server, s1: Server, w: World, steps: seq<Step>, account: string, space: string,
                       req: CommitRequest, plan: Plan, del: DeleteRequest, clock0: Clock, clock: Clock)
    requires SpaceActive(Run(w, steps).server, account, space)
    ensures var s := Run(w, steps).server;
            var (s2, first) := CommitLocked(s1, account, space, req, plan, clock0);
            CheckCommit(s0, account, space, req) == Ok(plan) && Grows(GrantEmpty(s0, account, req.manifest, plan), s1)
            && w.server == s2 && first.Ok? ==>
              var (s', again) := Commit(s, account, space, req, clock);
              again == first
              && (s' == s
                  <==> AllLiveDirs(s, RequestOrigin(account, space, req.device, req.root), Ancestors(plan.path)))
    ensures var s := Run(w, steps).server;
            var (s2, first) := Delete(s0, account, space, del, clock0);
            w.server == s2 && first.Ok? ==> Delete(s, account, space, del, clock) == (s, first)
  {
    hide Run, Commit, CommitLocked, Delete, SpaceActive, Grows, AllLiveDirs, Ancestors, CheckCommit, GrantEmpty;
    var s := Run(w, steps).server;
    RunGrows(w, steps);
    if CheckCommit(s0, account, space, req) == Ok(plan) && Grows(GrantEmpty(s0, account, req.manifest, plan), s1)
       && w.server == CommitLocked(s1, account, space, req, plan, clock0).0
       && CommitLocked(s1, account, space, req, plan, clock0).1.Ok? {
      RedeliveredSplit(s0, s1, s, account, space, req, plan, clock0, clock);
    }
    if w.server == Delete(s0, account, space, del, clock0).0 && Delete(s0, account, space, del, clock0).1.Ok? {
      RedeliveredDelete(s0, s, account, space, del, clock0, clock);
    }
  }
}
