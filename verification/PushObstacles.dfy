/** What keeps a push from getting through, and what keeps it from bringing client and server together
    (internal/client/sync.go, internal/server/store.go). */
module PushObstacles {
  import opened Model
  import opened Paths
  import opened ConflictNames
  import opened ClientRecords
  import opened LocalFiles
  import opened StoreSpec
  import opened StoreInvariant
  import opened StoreGrowth
  import opened StoreCommit
  import opened NoLostUpdate
  import opened FileChunks
  import opened SyncProtocol
  import opened SyncSafety
  import opened Redelivery
  import opened ClientEngine
  import opened EngineRuns
  import opened PushEffects
  import opened PushStores
  import opened RecordsInStep
  import opened PassiveReplica
  import ActiveReplica
  import InterleavedPush
  import TrashWindow
  import SyncTheorems
  import ChunkRefs

  // ---------------------------------------------------------------- a file where the server has a directory

  lemma CopyHasBlank(p: string, d: string, device: string)
    requires IsCopyName(p, d, device)
    ensures ' ' in p && Above(p) == Above(d)
  {
    var stamp: Stamp, n: nat :| p == Candidate(d, device, stamp, n);
    var stem, mark, ext := Stem(d), Mark(device, stamp, n), Ext(d);
    MarkIsPlain(device, stamp, n);
    MarkHasBlank(device, stamp, n);
    CandidateParts(d, device, stamp, n);
    hide Mark, Stem, Ext, Candidate, Above;
    AboveAppend(stem, mark + ext);
    AboveAppend(stem, ext);
  }

  lemma MarkHasBlank(device: string, stamp: Stamp, n: nat)
    ensures ' ' in Mark(device, stamp, n)
  {
    assert Mark(device, stamp, n)[0] == ' ';
  }

  lemma CandidateParts(d: string, device: string, stamp: Stamp, n: nat)
    ensures Candidate(d, device, stamp, n) == Stem(d) + (Mark(device, stamp, n) + Ext(d)) && d == Stem(d) + Ext(d)
  {
  }

  /** A conflict copy of a scanned file is outside the state directory too. */
  lemma CopyOutsideState(p: string, d: string, device: string)
    requires IsCopyName(p, d, device) && !Within(d, STATE_DIR)
    ensures !Within(p, STATE_DIR)
  {
    CopyHasBlank(p, d, device);
    AboveIsUnder(p, STATE_DIR);
    AboveIsUnder(d, STATE_DIR);
  }

  /** A file where the server has a directory the client was never told of is put beside it, and the copy deleted. */
  lemma {:induction false} LooseIsPutBeside(c: Client, m: Moment, mid: Moment, m': Moment, scan: map<string, Scan>,
                                            todo: set<string>, chunkSize: nat, p: string)
      returns (q: string)
    requires chunkSize > 0 && todo <= scan.Keys && ScanSound(scan) && Inv(m.server) && CleanRecords(m.records)
             && FilesThere(m.tree, scan, todo) && p in todo && scan[p].state.File?
    requires p !in m.records && IsLiveDir(m.server.files, PathKey(c, p))
    requires forall x | IsCopyName(x, p, c.device) :: x !in scan
    requires VisitsAll(c, m, mid, scan, todo, chunkSize) && RemovesAll(c, mid, m', GonePaths(mid.records, scan))
    ensures IsCopyName(q, p, c.device) && InTombstone(c, m'.server, q) && IsFile(m'.tree, q)
    decreases |todo|
  {
    hide Inv, IsClean, Visited, RemovesAll, IsCopyName, UsedPaths, FilesThere, CleanRecords, LiveDir, InTombstone;
    var rel, m1 :| rel in todo && Visited(c, m, m1, rel, scan[rel], chunkSize)
                   && VisitsAll(c, m1, mid, scan, todo - {rel}, chunkSize);
    if rel == p {
      LiveIsVersion(m.server, PathKey(c, p));
      CurrentIsLast(c, m.server, p);
      q := LooseVisited(c, m, m1, mid, m', scan, todo, chunkSize, p);
    } else {
      var x := VisitWent(c, m, m1, rel, scan[rel], chunkSize);
      LooseStays(c, m, m1, rel, x, p);
      VisitKeepsFiles(c, m, m1, scan, todo, rel, chunkSize, p);
      VisitCleanRecords(c, m, m1, rel, scan[rel], chunkSize);
      q := LooseIsPutBeside(c, m1, mid, m', scan, todo - {rel}, chunkSize, p);
    }
  }

  lemma LooseStays(c: Client, m: Moment, m': Moment, rel: string, x: string, p: string)
    requires Inv(m.server) && Went(c, m, m', rel, x) && p != rel && p !in m.records
             && IsLiveDir(m.server.files, PathKey(c, p))
    ensures p !in m'.records && IsLiveDir(m'.server.files, PathKey(c, p))
  {
    InvKeysMatch(m.server);
    UsedIs(m.server, PathKey(c, p));
    LiveIsVersion(m.server, PathKey(c, p));
    hide Inv, Grows, UsedPaths, IsCopyName, LiveDir;
    assert SameRecord(m, m', p) && SameVersionAt(c, m.server, m'.server, p);
  }

  lemma LooseVisited(c: Client, m: Moment, m1: Moment, mid: Moment, m': Moment, scan: map<string, Scan>,
                     todo: set<string>, chunkSize: nat, p: string) returns (q: string)
    requires chunkSize > 0 && todo <= scan.Keys && ScanSound(scan) && Inv(m.server) && CleanRecords(m.records)
             && FilesThere(m.tree, scan, todo) && p in todo && scan[p].state.File?
    requires p !in m.records && HasVersion(m.server.files, PathKey(c, p))
             && m.server.files[PathKey(c, p)].current.value.versionId.Issued?
    requires forall x | IsCopyName(x, p, c.device) :: x !in scan
    requires Visited(c, m, m1, p, scan[p], chunkSize) && VisitsAll(c, m1, mid, scan, todo - {p}, chunkSize)
             && RemovesAll(c, mid, m', GonePaths(mid.records, scan))
    ensures IsCopyName(q, p, c.device) && InTombstone(c, m'.server, q) && IsFile(m'.tree, q)
  {
    hide Inv, IsClean, RemovesAll, VisitsAll, IsCopyName, UsedPaths, FilesThere, CleanRecords, LiveDir, InTombstone,
         FileSent, LiveFile;
    var opId, clock, time :| FileSent(c, m, m1, p, scan[p], chunkSize, opId, clock, time);
    q := LiveAfterPush(c, m, m1, mid, m', scan, todo, p, chunkSize, opId, clock, time);
  }

  /** So the first half of `Unhampered` is needed: with such a file, and none that happens to bear the name of its
      copy, a push that gets through undisturbed leaves a file on the client that the server does not have. */
  lemma HamperedByDirectory(c: Client, m: Moment, m': Moment, chunkSize: nat, p: string)
    requires chunkSize > 0 && Inv(m.server) && WellFormed(m.tree) && CleanTree(m.tree) && CleanRecords(m.records)
             && Pushed(c, m, m', chunkSize)
    requires Scanned(m.tree, p) && IsFile(m.tree, p) && Loose(m.records, p, LastOf(c, m.server, p))
    requires forall x | IsCopyName(x, p, c.device) :: !Scanned(m.tree, x)
    ensures !ActiveReplica.HoldsLive(c, m'.server, m'.records, m'.tree)
  {
    hide Inv, WellFormed, CleanTree, CleanRecords, VisitsAll, RemovesAll, ScanOf, LastAt, IsCopyName, ScanSound,
         InTombstone, LiveDir;
    var dirTimes: map<string, int>, mid :|
        var scan := ScanOf(m.tree, chunkSize, dirTimes);
        VisitsAll(c, m, mid, scan, scan.Keys, chunkSize) && RemovesAll(c, mid, m', GonePaths(mid.records, scan));
    var scan := ScanOf(m.tree, chunkSize, dirTimes);
    InterleavedPush.ScanIsSound(m.tree, chunkSize, dirTimes);
    ScannedFilesThere(m.tree, chunkSize, dirTimes);
    forall x ensures x in scan <==> Scanned(m.tree, x) { ActiveReplica.ScanFinds(m.tree, chunkSize, dirTimes, x); }
    ActiveReplica.ScanFinds(m.tree, chunkSize, dirTimes, p);
    LooseIsLiveDir(c, m.server, m.records, p);
    var q := LooseIsPutBeside(c, m, mid, m', scan, scan.Keys, chunkSize, p);
    CopyOutsideState(q, p, c.device);
    PushKeepsInv(c, m, mid, m', scan, chunkSize);
    TombstoneNotHeld(c, m', q);
  }

  lemma ScannedFilesThere(t: Tree, chunkSize: nat, dirTimes: map<string, int>)
    requires chunkSize > 0 && WellFormed(t)
    ensures var scan := ScanOf(t, chunkSize, dirTimes); FilesThere(t, scan, scan.Keys)
  {
    hide WellFormed, Blocks, RefsOf;
  }

  lemma LooseIsLiveDir(c: Client, s: Server, records: Records, p: string)
    requires Inv(s) && Loose(records, p, LastOf(c, s, p))
    ensures IsLiveDir(s.files, PathKey(c, p)) && p !in records
  {
    ActiveReplica.LiveAtLast(c, s, p);
    CurrentIsLast(c, s, p);
  }

  lemma PushKeepsInv(c: Client, m: Moment, mid: Moment, m': Moment, scan: map<string, Scan>, chunkSize: nat)
    requires chunkSize > 0 && ScanSound(scan) && Inv(m.server) && CleanRecords(m.records)
    requires VisitsAll(c, m, mid, scan, scan.Keys, chunkSize) && RemovesAll(c, mid, m', GonePaths(mid.records, scan))
    ensures Inv(m'.server)
  {
    hide Inv, VisitsAll, RemovesAll, Grows, CleanRecords, ScanSound;
    VisitsCleanRecords(c, m, mid, scan, scan.Keys, chunkSize);
    RemovalsKeep(c, mid, m', GonePaths(mid.records, scan));
  }

  lemma TombstoneNotHeld(c: Client, m: Moment, q: string)
    requires Inv(m.server) && InTombstone(c, m.server, q) && IsFile(m.tree, q) && !Within(q, STATE_DIR)
    ensures !ActiveReplica.HoldsLive(c, m.server, m.records, m.tree)
  {
    CurrentIsLast(c, m.server, q);
    ActiveReplica.LastIsLive(c, m.server, q);
    hide Inv, LastAt, LiveContents, LiveDir;
    assert !ActiveReplica.HoldsLiveAt(c, m.server, m.records, m.tree, q);
  }

  // ---------------------------------------------------------------- a file that was pruned

  lemma LandAtOk(s: Server, o: Origin, m: Manifest, key: Key, state: EntryState, now: int, conflict: bool)
    requires key in s.files
    ensures LandAt(s, o, m, key, state, now, conflict).1.Ok?
  {
  }

  lemma EntryOkUnlessOther(s: Server, o: Origin, m: Manifest, path: string, state: EntryState, clock: Clock)
    ensures var key := Key(o.account, o.space, path);
            CommitEntry(s, o, m, path, state, clock).1.Ok?
            <==> m.fileId == NoId || EnsureEntry(s, key).files[key].fileId == m.fileId
  {
    hide LandAt, CopyKey;
    var s1, key := EnsureEntry(s, Key(o.account, o.space, path)), Key(o.account, o.space, path);
    var copy := CopyKey(s1, o, path, clock);
    LandAtOk(NewEntry(s1, copy), o, m, copy, state, clock.now, true);
    LandAtOk(s1, o, m, key, state, clock.now, false);
  }

  /** A commit that passes the checks is answered if and only if it names no file, or the one at its path. */
  lemma AnsweredUnlessOther(s: Server, account: string, space: string, req: CommitRequest, clock: Clock)
    requires Inv(s) && Key(account, space, req.opId) !in s.ops && CheckCommit(s, account, space, req).Ok?
    requires req.manifest.fileId != NoId ==> req.manifest.fileId in s.versions
    ensures var at := Key(account, space, CheckCommit(s, account, space, req).value.path);
            Commit(s, account, space, req, clock).1.Ok?
            <==> req.manifest.fileId == NoId || Carried(s, at, req.manifest.fileId)
  {
    hide Inv, CheckCommit, EnsureParents, CommitEntry, IsClean, Ancestors, Ready, Grows, Kept, FreshEntries, LastAt;
    var m, plan := req.manifest, CheckCommit(s, account, space, req).value;
    var o := RequestOrigin(account, space, req.device, req.root);
    var at := Key(account, space, plan.path);
    CheckCommitSound(s, account, space, req);
    var s0 := GrantEmpty(s, account, m, plan);
    GrantEmptyInv(s, account, m, plan);
    ReadyClean(s, account, m, plan);
    var s1 := AfterParents(s0, account, space, req, plan, clock);
    AfterParentsInv(s0, account, space, req, plan, clock);
    AfterParentsSameAt(s0, account, space, req, plan, clock);
    EntryOkUnlessOther(s1, o, m, plan.path, plan.state, clock);
    IdsInUse(s);
    NextIdGrows(s0, s1);
  }

  lemma NextIdGrows(s: Server, s': Server)
    requires Grows(s, s')
    ensures s.nextId <= s'.nextId
  {
  }

  /** The upload of a scanned file whose chunks are there gets through in an active space if and only if the record
      names no file, or the one at its path; or two byte strings with one digest are at hand. */
  lemma UploadGetsThrough(c: Client, s: Server, records: Records, opId: string, rel: string, content: Bytes, mtime: int,
                          chunkSize: nat, clock: Clock)
    requires Inv(s) && chunkSize > 0 && IsClean(rel) && opId != "" && Key(c.account, c.space, opId) !in s.ops
             && c.device != "" && SpaceActive(s, c.account, c.space)
    requires BlocksAvailable(s, c.account, Blocks(content, chunkSize))
    requires var id := Known(records, rel).fileId; id != NoId ==> id in s.versions
    ensures var entry := ScanEntry(FileNode(content, mtime), chunkSize, 0);
            var id := Known(records, rel).fileId;
            (Commit(s, c.account, c.space, Upload(c, records, opId, rel, entry), clock).1.Ok?
             <==> id == NoId || Carried(s, PathKey(c, rel), id))
            || exists i :: 0 <= i < |Blocks(content, chunkSize)| && Collides(s, Blocks(content, chunkSize)[i])
  {
    hide Inv, Commit, Blocks, Verify, Collides, BlocksAvailable, CleanRel, RefsOf;
    var entry := ScanEntry(FileNode(content, mtime), chunkSize, 0);
    var req := Upload(c, records, opId, rel, entry);
    InvChunks(s);
    AcceptedAndJoined(s, c.account, req.manifest, content, chunkSize);
    CleanRelFixpoint(rel);
    CleanNotEmpty(rel);
    if Verify(s, c.account, req.manifest).Ok? {
      hide IsClean, SpaceActive;
      ChecksPass(s, c.account, c.space, req);
      AnsweredUnlessOther(s, c.account, c.space, req, clock);
    }
  }

  lemma InvChunks(s: Server)
    requires Inv(s)
    ensures ChunksOk(s.chunks)
  {
  }

  lemma CleanNotEmpty(p: string)
    requires IsClean(p)
    ensures p != ""
  {
    assert Split("")[0] == "";
  }

  lemma ChecksPass(s: Server, account: string, space: string, req: CommitRequest)
    requires var m := req.manifest;
             req.opId != "" && req.device != "" && m.path != "" && m.state.File? && IsHash(m.hash)
             && SpaceActive(s, account, space) && CleanRel(m.path) == Ok(m.path) && Verify(s, account, m).Ok?
    ensures CheckCommit(s, account, space, req) == Ok(Plan(req.manifest.path, File))
  {
    hide CleanRel, Verify, SpaceActive;
  }

  // ---------------------------------------------------------------- over runs

  lemma FreshKeepsAway(s: Server, s': Server, key: Key, id: Id)
    requires Inv(s) && FreshEntries(s, s') && id in s.versions && !Carried(s, key, id)
    ensures !Carried(s', key, id)
  {
    IdsInUse(s);
    hide Inv;
  }

  lemma StepFresh(w: World, step: Step)
    requires WorldOk(w)
    ensures FreshEntries(w.server, Next(w, step).server)
  {
    hide Inv, ChunkRefs.Conserved, SentOk, OpsAnswer, RepliesOk, LocalsOk, CheckCommit, CommitLocked, Delete, Restore,
         Prune, IsClean, Ready, Recorded, Applied, Upload, Removal, EventsAfter, PutChunk, GrantAccountChunk, CheckedOk,
         FreshEntries, Touched;
    FreshItself(w.server);
    TrashWindow.FreshFiles(w.server, w.server, Next(w, step).server);
    match step
    case HandleCommit(opId, plan, clock) =>
      if IsSentCommit(w, opId) && (opId, plan) in w.checked {
        var c := w.clients[w.sent[opId].client];
        CheckedClean(w, opId, plan);
        TrashWindow.CommitLockedFresh(w.server, c.account, c.space, w.sent[opId].message.commit, plan, clock);
      }
    case HandleDelete(opId, clock) =>
      if IsSentDelete(w, opId) {
        var c := w.clients[w.sent[opId].client];
        DeleteFresh(w.server, c.account, c.space, w.sent[opId].message.delete, clock);
      }
    case RestoreFile(account, req, actor, clock) => RestoreFresh(w.server, account, req, actor, clock);
    case PruneTrash(time) => PruneFresh(w.server, time);
    case UploadChunk(account, hash, data) => ChunkFresh(w.server, account, hash, data);
    case _ =>
  }

  lemma CheckedClean(w: World, opId: string, plan: Plan)
    requires WorldOk(w) && IsSentCommit(w, opId) && (opId, plan) in w.checked
    ensures IsClean(plan.path) && Inv(w.server)
  {
    hide Inv, ChunkRefs.Conserved, OpsAnswer, RepliesOk, LocalsOk, IsClean;
    assert (opId, plan).0 in w.sent;
  }

  lemma DeleteFresh(s: Server, account: string, space: string, req: DeleteRequest, clock: Clock)
    ensures FreshEntries(s, Delete(s, account, space, req, clock).0)
  {
    hide CleanRel, SpaceActive, Tombstone, Install, FreshEntries;
    FreshItself(s);
    if CleanRel(req.path).Ok? {
      var key := Key(account, space, CleanRel(req.path).value);
      if key in s.files {
        var o := RequestOrigin(account, space, req.device, req.root);
        var v := Tombstone(o, key, s.files[key], req.base, Issued(s.nextId), clock.now);
        InstallFresh(s, key, v);
        TrashWindow.FreshFiles(s, Install(s, key, v), Delete(s, account, space, req, clock).0);
      }
    }
    TrashWindow.FreshFiles(s, s, Delete(s, account, space, req, clock).0);
  }

  lemma FreshItself(s: Server)
    ensures FreshEntries(s, s)
  {
  }

  lemma InstallFresh(s: Server, key: Key, v: FileVersion)
    requires key in s.files
    ensures FreshEntries(s, Install(s, key, v))
  {
  }

  lemma PruneFresh(s: Server, now: int)
    ensures FreshEntries(s, Prune(s, now))
  {
  }

  lemma RestoreFresh(s: Server, account: string, req: RestoreRequest, actor: string, clock: Clock)
    ensures FreshEntries(s, Restore(s, account, req, actor, clock).0)
  {
    PruneFresh(s, clock.now);
    hide CleanRel, SpaceActive, RestoreSource, RestoreDevice, RestoreSpace, Prune, InTrash;
  }

  lemma ChunkFresh(s: Server, account: string, hash: string, data: Bytes)
    ensures FreshEntries(s, GrantAccountChunk(PutChunk(s, hash, data).0, account, hash).0)
  {
  }

  /** Once a file's id is gone from a path it never returns there, whatever happens. */
  lemma {:induction false} IdNeverReturns(w: World, steps: seq<Step>, key: Key, id: Id)
    requires WorldOk(w) && id in w.server.versions && !Carried(w.server, key, id)
    ensures var w' := Run(w, steps);
            WorldOk(w') && id in w'.server.versions && !Carried(w'.server, key, id)
    decreases |steps|
  {
    hide WorldOk, Next, FreshEntries, Carried, Grows;
    if steps != [] {
      NextOk(w, steps[0]);
      NextGrows(w, steps[0]);
      StepFresh(w, steps[0]);
      EngineRuns.ServerInv(w);
      FreshKeepsAway(w.server, Next(w, steps[0]).server, key, id);
      StillStored(w.server, Next(w, steps[0]).server, id);
      IdNeverReturns(Next(w, steps[0]), steps[1..], key, id);
    }
  }

  lemma StillStored(s: Server, s': Server, id: Id)
    requires Grows(s, s') && id in s.versions
    ensures id in s'.versions
  {
  }

  /** A client whose record of a path names a file that is not there any more, as when its tombstone was pruned: in
      every later state an upload from that record is refused. */
  lemma RefusedForGood(w: World, early: seq<Step>, late: seq<Step>, id: nat, path: string, req: CommitRequest,
                       clock: Clock)
    requires Initial(w)
    requires var w1 := Run(w, early);
             id in w1.clients && id in w1.locals && path in w1.locals[id].records
             && !Carried(w1.server, PathKey(w1.clients[id], path), w1.locals[id].records[path].fileId)
    requires var w1, m := Run(w, early), req.manifest;
             m.path == path && m.fileId == w1.locals[id].records[path].fileId && (m.state.File? || m.state.Dir?)
    requires Key(Run(w, early).clients[id].account, Run(w, early).clients[id].space, req.opId)
             !in Run(Run(w, early), late).server.ops
    ensures var c := Run(w, early).clients[id];
            Commit(Run(Run(w, early), late).server, c.account, c.space, req, clock).1.Err?
  {
    hide Run, Initial, Inv, Carried, Names, Commit, IsClean;
    InitialOk(w);
    RunOk(w, early);
    SyncTheorems.RecordsNameVersions(w, early, id, path);
    SyncTheorems.RecordedPathsAreClean(w, early, id, path);
    var w1 := Run(w, early);
    var c, f := w1.clients[id], w1.locals[id].records[path].fileId;
    EngineRuns.ServerInv(w1);
    NamedEntryHasVersion(w1.server, PathKey(c, path), f, w1.locals[id].records[path].versionId);
    IdNeverReturns(w1, late, PathKey(c, path), f);
    EngineRuns.ServerInv(Run(w1, late));
    OtherIdRefused(c, Run(w1, late).server, req, clock);
  }

  // ---------------------------------------------------------------- a push with such a file

  /** The record names a file that has a history, and is not at its path. */
  predicate Forgotten(c: Client, s: Server, records: Records, p: string) {
    p in records && records[p].fileId != NoId && records[p].fileId in s.versions
    && !Carried(s, PathKey(c, p), records[p].fileId)
  }

  lemma CommitFresh(s: Server, account: string, space: string, req: CommitRequest, clock: Clock)
    requires Inv(s)
    ensures FreshEntries(s, Commit(s, account, space, req, clock).0)
  {
    hide Inv, CheckCommit, CommitLocked, FreshEntries, IsClean, Ready;
    FreshItself(s);
    var checked := CheckCommit(s, account, space, req);
    if checked.Ok? {
      var s0 := GrantEmpty(s, account, req.manifest, checked.value);
      CheckCommitSound(s, account, space, req);
      GrantEmptyInv(s, account, req.manifest, checked.value);
      ReadyClean(s, account, req.manifest, checked.value);
      TrashWindow.CommitLockedFresh(s0, account, space, req, checked.value, clock);
      TrashWindow.FreshFiles(s, s, s0);
      FreshTransitive(s, s0, CommitLocked(s0, account, space, req, checked.value, clock).0);
    }
  }

  lemma VisitFresh(c: Client, m: Moment, m': Moment, rel: string, entry: Scan, chunkSize: nat)
    requires chunkSize > 0 && Inv(m.server) && Visited(c, m, m', rel, entry, chunkSize)
    ensures FreshEntries(m.server, m'.server)
  {
    hide Inv, Commit, FreshEntries, ChunksSent, Recorded, Upload, Grows, FollowCopy;
    FreshItself(m.server);
    if m'.server != m.server {
      if entry.state.Dir? {
        var opId, clock, time :| DirSent(c, m, m', rel, entry, opId, clock, time);
        CommitFresh(m.server, c.account, c.space, Upload(c, m.records, opId, rel, DirScan(entry)), clock);
      } else {
        var opId, clock, time :| FileSent(c, m, m', rel, entry, chunkSize, opId, clock, time);
        var s1 := ChunksSent(m.server, c.account, ContentAt(m.tree, rel), chunkSize, entry);
        ChunksSentKeeps(c, m.server, ContentAt(m.tree, rel), chunkSize, entry);
        TrashWindow.FreshFiles(m.server, m.server, s1);
        CommitFresh(s1, c.account, c.space, Upload(c, m.records, opId, rel, entry), clock);
        FreshTransitive(m.server, s1, m'.server);
      }
    }
  }

  lemma ForgottenStays(c: Client, m: Moment, m': Moment, rel: string, entry: Scan, chunkSize: nat, p: string)
    requires chunkSize > 0 && Inv(m.server) && IsClean(rel) && (entry.state.File? || entry.state.Dir?)
    requires Visited(c, m, m', rel, entry, chunkSize) && ActiveReplica.OthersSame(m, m', rel) && p != rel
    requires Forgotten(c, m.server, m.records, p)
    ensures Forgotten(c, m'.server, m'.records, p) && m'.records[p] == m.records[p]
  {
    hide Inv, IsClean, Visited, FreshEntries, Grows, Carried, AtHead, IsCopyName, UsedPaths, SameVersionAt;
    VisitFresh(c, m, m', rel, entry, chunkSize);
    FreshKeepsAway(m.server, m'.server, PathKey(c, p), m.records[p].fileId);
    var q := VisitWent(c, m, m', rel, entry, chunkSize);
    StillStored(m.server, m'.server, m.records[p].fileId);
  }

  /** A visit that would have to send it does not get through. */
  lemma ForgottenNotSent(c: Client, m: Moment, m': Moment, p: string, entry: Scan, chunkSize: nat)
    requires chunkSize > 0 && Inv(m.server) && IsClean(p) && (entry.state.File? || entry.state.Dir?)
    requires Forgotten(c, m.server, m.records, p) && Sends(m.records, p, entry)
    ensures !Visited(c, m, m', p, entry, chunkSize)
  {
    hide Inv, Commit, IsClean, ChunksSent, Recorded, FollowCopy;
    if Visited(c, m, m', p, entry, chunkSize) {
      if entry.state.Dir? {
        var opId, clock, time :| DirSent(c, m, m', p, entry, opId, clock, time);
        OtherIdRefused(c, m.server, Upload(c, m.records, opId, p, DirScan(entry)), clock);
      } else {
        var opId, clock, time :| FileSent(c, m, m', p, entry, chunkSize, opId, clock, time);
        var s1 := ChunksSent(m.server, c.account, ContentAt(m.tree, p), chunkSize, entry);
        ChunksSentKeeps(c, m.server, ContentAt(m.tree, p), chunkSize, entry);
        StillStored(m.server, s1, m.records[p].fileId);
        OtherIdRefused(c, s1, Upload(c, m.records, opId, p, entry), clock);
      }
    }
  }

  lemma {:induction false} ForgottenVisits(c: Client, m: Moment, m': Moment, scan: map<string, Scan>, todo: set<string>,
                                           chunkSize: nat, p: string)
    requires Inv(m.server) && ActiveReplica.Pushing(c, m, scan, todo) && ActiveReplica.CopiesClear(c, m, scan)
             && ActiveReplica.ScanClosed(scan) && ScanSound(scan)
    requires chunkSize > 0 && todo <= scan.Keys && p in todo
    requires Forgotten(c, m.server, m.records, p) && Sends(m.records, p, scan[p])
    ensures !VisitsAll(c, m, m', scan, todo, chunkSize)
    decreases |todo|
  {
    hide Inv, ActiveReplica.Pushing, ActiveReplica.CopiesClear, ActiveReplica.ScanClosed, Visited, IsClean, Forgotten,
         OwnGrowth;
    if VisitsAll(c, m, m', scan, todo, chunkSize) {
      var rel, mid :| rel in todo && Visited(c, m, mid, rel, scan[rel], chunkSize)
                      && VisitsAll(c, mid, m', scan, todo - {rel}, chunkSize);
      if rel == p {
        ForgottenNotSent(c, m, mid, p, scan[p], chunkSize);
      } else {
        ActiveReplica.VisitOk(c, m, mid, scan, todo, rel, chunkSize);
        ForgottenStays(c, m, mid, rel, scan[rel], chunkSize, p);
        ForgottenVisits(c, mid, m', scan, todo - {rel}, chunkSize, p);
      }
    }
  }

  /** From records in step, and with nothing to hamper it, a push that would have to send a file or directory whose
      record names a file that is gone from its path never gets through: not until somebody else commits there and
      the client pulls that. */
  lemma PushBlocked(c: Client, m: Moment, m': Moment, chunkSize: nat, p: string)
    requires chunkSize > 0 && Inv(m.server) && WellFormed(m.tree) && CleanTree(m.tree)
    requires ActiveReplica.InStep(c, m.server, m.records) && ActiveReplica.Unhampered(c, m)
    requires Scanned(m.tree, p) && Forgotten(c, m.server, m.records, p)
             && Sends(m.records, p, ScanEntry(m.tree[p], chunkSize, 0))
    ensures !Pushed(c, m, m', chunkSize)
  {
    hide Inv, WellFormed, CleanTree, ActiveReplica.InStep, ActiveReplica.Unhampered, ActiveReplica.Pushing,
         ActiveReplica.CopiesClear, ActiveReplica.ScanClosed, ScanSound, VisitsAll, RemovesAll, Forgotten, Blocks,
         RefsOf;
    if Pushed(c, m, m', chunkSize) {
      var dirTimes: map<string, int>, mid :|
          var scan := ScanOf(m.tree, chunkSize, dirTimes);
          VisitsAll(c, m, mid, scan, scan.Keys, chunkSize) && RemovesAll(c, mid, m', GonePaths(mid.records, scan));
      var scan := ScanOf(m.tree, chunkSize, dirTimes);
      ActiveReplica.ScanIsClosed(m.tree, chunkSize, dirTimes);
      InterleavedPush.ScanIsSound(m.tree, chunkSize, dirTimes);
      ActiveReplica.StartsPushing(c, m, chunkSize, dirTimes);
      ForgottenVisits(c, m, mid, scan, scan.Keys, chunkSize, p);
    }
  }
}
