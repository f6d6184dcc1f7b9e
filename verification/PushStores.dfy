/** What a push leaves on the server, and what it does to other local files (internal/client/sync.go). */
module PushStores {
  import opened Model
  import opened Paths
  import opened LocalFiles
  import opened StoreSpec
  import opened StoreInvariant
  import opened StoreGrowth
  import opened StoreCommit
  import opened StoreTrash
  import opened NoLostUpdate
  import opened FileChunks
  import opened SyncProtocol
  import opened SyncSafety
  import opened ClientEngine
  import opened UnsyncedContent
  import opened EngineRuns
  import TrashWindow
  import DirectoryCleanup
  import opened PushEffects

  // ---------------------------------------------------------------- other local files

  /** An upload leaves the bytes of every other file alone, except those of a file that stands at the conflict path the
      uploaded file is moved to: these stay if and only if they are the uploaded bytes. */
  lemma UploadSparesOthers(c: Client, m: Moment, m': Moment, rel: string, entry: Scan, chunkSize: nat, opId: string,
                           clock: Clock, time: int, mine: Bytes, p: string, data: Bytes)
    requires chunkSize > 0 && FileSent(c, m, m', rel, entry, chunkSize, opId, clock, time)
    requires WellFormed(m.tree) && Holds(m.tree, rel, mine) && Holds(m.tree, p, data) && p != rel
    ensures var s1 := ChunksSent(m.server, c.account, ContentAt(m.tree, rel), chunkSize, entry);
            var r := Commit(s1, c.account, c.space, Upload(c, m.records, opId, rel, entry), clock).1.value;
            Holds(m'.tree, p, data)
            <==> !(r.version.value.path != rel && p == r.conflictPath != "" && mine != data)
  {
    hide Commit, ChunksSent, Upload, Recorded;
    var s1 := ChunksSent(m.server, c.account, ContentAt(m.tree, rel), chunkSize, entry);
    var r := Commit(s1, c.account, c.space, Upload(c, m.records, opId, rel, entry), clock).1.value;
    if r.version.value.path != rel && r.conflictPath != "" { FollowSpares(m.tree, rel, r.conflictPath, mine, p, data); }
  }

  lemma FollowSpares(t: Tree, rel: string, to: string, mine: Bytes, p: string, data: Bytes)
    requires WellFormed(t) && Holds(t, rel, mine) && Holds(t, p, data) && p != rel
    requires var (t1, made) := EnsureParent(t, to); made.Done? && Rename(t1, rel, to).1.Done?
    ensures Holds(Rename(EnsureParent(t, to).0, rel, to).0, p, data) <==> !(p == to && mine != data)
  {
    hide MoveTree, WellFormed;
    var t1 := EnsureParent(t, to).0;
    EnsureParentWellFormed(t, to);
    MakeDirsKeeps(t, Above(to), rel, mine);
    MakeDirsKeeps(t, Above(to), p, data);
    if to != rel {
      if Under(p, rel) { NotBelowFile(t1, p, rel); }
      MoveLands(t1, rel, to, p, data);
    }
  }

  /** Following a conflict copy moves no other file; at most one file's place is taken. */
  lemma FollowKeeps(t: Tree, rel: string, r: CommitResponse, p: string)
    requires WellFormed(t) && IsFile(t, rel) && IsFile(t, p) && p != rel && FollowCopy(t, rel, r).1
    ensures var t' := FollowCopy(t, rel, r).0;
            WellFormed(t') && IsFile(t', p) && (p != r.conflictPath ==> t'[p].data == t[p].data)
  {
    hide WellFormed, Rename;
    if r.version.Some? && r.version.value.path != rel && r.conflictPath != "" {
      EnsureParentWellFormed(t, r.conflictPath);
      RenameWellFormed(EnsureParent(t, r.conflictPath).0, rel, r.conflictPath);
      FollowSpares(t, rel, r.conflictPath, t[rel].data, p, t[p].data);
      if p == r.conflictPath { FollowArrives(t, rel, p); }
    }
  }

  lemma FollowArrives(t: Tree, rel: string, to: string)
    requires IsFile(t, rel) && to != rel
    requires var (t1, made) := EnsureParent(t, to); made.Done? && Rename(t1, rel, to).1.Done?
    ensures IsFile(Rename(EnsureParent(t, to).0, rel, to).0, to)
  {
    var t1 := EnsureParent(t, to).0;
    MakeDirsKeeps(t, Above(to), rel, t[rel].data);
    MovedAt(t1, rel, to, to);
    assert Back(to, rel, to) == rel;
  }

  lemma NotBelowFile(t: Tree, p: string, d: string)
    requires WellFormed(t) && p in t && IsFile(t, d)
    ensures !Under(p, d)
  {
  }

  // ---------------------------------------------------------------- what one request leaves on the server

  lemma {:induction false} SendingKeeps(s: Server, account: string, blocks: seq<Bytes>, missing: set<string>)
    requires Inv(s)
    ensures var s' := SendBlocks(s, account, blocks, missing); Inv(s') && Grows(s, s')
  {
    hide Inv, Grows, PutChunk, GrantAccountChunk;
    GrowsReflexive(s);
    if blocks != [] {
      var front, block := blocks[..|blocks| - 1], blocks[|blocks| - 1];
      var s1 := SendBlocks(s, account, front, missing);
      var s2 := PutChunk(s1, HashBytes(block), block).0;
      var s3 := GrantAccountChunk(s2, account, HashBytes(block)).0;
      SendingKeeps(s, account, front, missing);
      PutChunkInv(s1, HashBytes(block), block);
      PutChunkGrows(s1, HashBytes(block), block);
      GrantInv(s2, account, HashBytes(block));
      GrantGrows(s2, account, HashBytes(block));
      GrowsTransitive(s1, s2, s3);
      GrowsTransitive(s, s1, s3);
    }
  }

  /** A first commit of a path keeps the invariant, and what it answers is stored. */
  lemma CommitAnswers(s: Server, account: string, space: string, req: CommitRequest, clock: Clock)
    requires Inv(s) && Key(account, space, req.opId) !in s.ops
    ensures var (s', r) := Commit(s, account, space, req, clock);
            Inv(s') && Grows(s, s')
            && (r.Ok? ==> r.value.version.Some? && InHistory(s'.versions, r.value.version.value))
  {
    CommitInv(s, account, space, req, clock);
    CommitGrows(s, account, space, req, clock);
    hide Inv, Grows, CheckCommit, CommitEntry, EnsureParents, CleanRel, InHistory, Ready;
    var checked := CheckCommit(s, account, space, req);
    if checked.Ok? {
      var s0 := GrantEmpty(s, account, req.manifest, checked.value);
      CheckCommitSound(s, account, space, req);
      GrantEmptyInv(s, account, req.manifest, checked.value);
      GrantEmptyGrows(s, account, req.manifest, checked.value);
      ReadyStable(s, s0, account, req.manifest, checked.value);
      CommitLockedAnswers(s0, account, space, req, checked.value, clock);
    }
  }

  // ---------------------------------------------------------------- records of current versions

  /** The record of `p` is that of the current version there. */
  predicate AtHead(c: Client, m: Moment, p: string) {
    var key := PathKey(c, p);
    p in m.records && HasVersion(m.server.files, key)
    && var v := m.server.files[key].current.value;
       m.records[p].fileId == m.server.files[key].fileId && m.records[p].versionId == v.versionId
       && m.records[p].state == v.state && m.records[p].hash == v.hash && m.records[p].size == v.size
  }

  /** A file, and one of this digest and size, is live at `p`. */
  predicate LiveFile(c: Client, s: Server, p: string, hash: string, size: int) {
    var key := PathKey(c, p);
    HasVersion(s.files, key)
    && var v := s.files[key].current.value;
       v.state.File? && v.hash == hash && v.size == size
  }

  predicate InTombstone(c: Client, s: Server, p: string) {
    HasVersion(s.files, PathKey(c, p)) && s.files[PathKey(c, p)].current.value.state.Deleted?
  }

  /** The server has a version of a file of this digest and size, stored by this account in this space at `p`. */
  ghost predicate OnServer(c: Client, s: Server, p: string, hash: string, size: int) {
    exists v :: InHistory(s.versions, v) && KeyOf(v) == PathKey(c, p) && v.state.File? && v.hash == hash
                && v.size == size
  }

  lemma StaysOnServer(c: Client, s: Server, s': Server, p: string, hash: string, size: int)
    requires Grows(s, s') && OnServer(c, s, p, hash, size)
    ensures OnServer(c, s', p, hash, size)
  {
    var v :| InHistory(s.versions, v) && KeyOf(v) == PathKey(c, p) && v.state.File? && v.hash == hash && v.size == size;
    InHistoryGrows(s.versions, s'.versions, v);
  }

  lemma LiveIsOnServer(c: Client, s: Server, p: string, hash: string, size: int)
    requires Inv(s) && LiveFile(c, s, p, hash, size)
    ensures OnServer(c, s, p, hash, size)
  {
    hide UniqueVersionIds, DistinctFileIds, LogOk, WindowOk, ReplayOk, ContentOk, ChunksOk, OpsOk;
    var e := s.files[PathKey(c, p)];
    assert EntryOk(s.versions, PathKey(c, p), e, s.nextId);
    assert InHistory(s.versions, e.current.value);
  }

  ghost predicate SameRecord(m: Moment, m': Moment, p: string) {
    (p in m'.records <==> p in m.records) && (p in m.records ==> m'.records[p] == m.records[p])
  }

  /** The entry at `p`, if it has a version, stays. */
  predicate SameVersionAt(c: Client, s: Server, s': Server, p: string) {
    HasVersion(s.files, PathKey(c, p)) ==>
      PathKey(c, p) in s'.files && s'.files[PathKey(c, p)] == s.files[PathKey(c, p)]
  }

  // ---------------------------------------------------------------- one upload

  /** Where an answered upload of `rel` went: to its own path, or beside it under a name nobody used. */
  ghost predicate WentTo(c: Client, s: Server, m: Manifest, q: string) {
    if NotDiverted(s, PathKey(c, m.path), m) then q == m.path
    else q != m.path && IsCopyName(q, m.path, c.device) && q !in UsedPaths(s.files)
  }

  /** A path that is in use keeps its version while directories are made. */
  lemma MadeKeepsVersions(c: Client, s: Server, s': Server, dirs: seq<string>, p: string)
    requires KeysMatch(s.files) && OnlyDirsMade(s, s', OriginOf(c), dirs, PathKey(c, p))
    ensures SameVersionAt(c, s, s', p)
  {
    hide LastAt, LiveDir, IsCopyName, UsedPaths;
    if HasVersion(s.files, PathKey(c, p)) { UsedIs(s, PathKey(c, p)); }
  }

  lemma CopyIsClean(s: Server, key: Key)
    requires Inv(s) && HasVersion(s.files, key)
    ensures IsClean(key.name) && s.files[key].current.value.path == key.name
            && s.files[key].current.value.fileId == s.files[key].fileId
  {
    hide UniqueVersionIds, DistinctFileIds, LogOk, WindowOk, ReplayOk, ContentOk, ChunksOk, OpsOk;
    assert EntryOk(s.versions, key, s.files[key], s.nextId);
  }

  /** What an answered upload did: the version is current where it went, and every other version stays. */
  lemma UploadWent(c: Client, s: Server, req: CommitRequest, clock: Clock)
    requires Inv(s) && Key(c.account, c.space, req.opId) !in s.ops && IsClean(req.manifest.path)
    requires (req.manifest.state.File? || req.manifest.state.Dir?) && req.device == c.device && req.root == c.root
    requires Commit(s, c.account, c.space, req, clock).1.Ok?
    ensures var (s', r) := Commit(s, c.account, c.space, req, clock);
            var m := req.manifest;
            Inv(s') && Grows(s, s') && r.value.version.Some?
            && var v := r.value.version.value;
               WentTo(c, s, m, v.path) && (v.path != m.path ==> r.value.conflictPath == v.path != "")
               && PathKey(c, v.path) in s'.files && s'.files[PathKey(c, v.path)].current == Some(v)
               && v.fileId == s'.files[PathKey(c, v.path)].fileId && v.state == m.state
               && (m.state.File? ==> v.hash == m.hash && v.size == m.size)
               && forall p | p != v.path :: SameVersionAt(c, s, s', p)
  {
    CommitAnswers(s, c.account, c.space, req, clock);
    InvKeysMatch(s);
    hide Inv, Grows, Commit, IsClean, OnlyDirsMade, Ancestors, LiveDir, LastAt, SameKey, IsCopyName, UsedPaths,
         KeysMatch, SameVersionAt, NotDiverted;
    var (s', r) := Commit(s, c.account, c.space, req, clock);
    var m := req.manifest;
    var dirs := Ancestors(m.path);
    if NotDiverted(s, PathKey(c, m.path), m) {
      CommitAnswered(s, c.account, c.space, req, clock);
      AnsweredVersion(c, s, s', m, r.value);
      CopyIsClean(s', PathKey(c, m.path));
      forall p | p != m.path ensures SameVersionAt(c, s, s', p) { MadeKeepsVersions(c, s, s', dirs, p); }
    } else {
      CommitPutBeside(s, c.account, c.space, req, clock);
      CopyIsClean(s', PathKey(c, r.value.conflictPath));
      forall p | p != r.value.conflictPath ensures SameVersionAt(c, s, s', p) {
        MadeKeepsVersions(c, s, s', dirs, p);
      }
    }
  }

  lemma AnsweredVersion(c: Client, s: Server, s': Server, m: Manifest, r: CommitResponse)
    requires PushEffects.Answered(s, s', OriginOf(c), m, r) && r.version.Some? && (m.state.File? || m.state.Dir?)
    ensures HasVersion(s'.files, PathKey(c, m.path))
    ensures var v := s'.files[PathKey(c, m.path)].current.value;
            r.version == Some(v) && v.state == m.state && (m.state.File? ==> v.hash == m.hash && v.size == m.size)
  {
    hide OnlyDirsMade, LastAt;
  }

  // ---------------------------------------------------------------- one visit

  /** The record is that of the scanned file or directory. */
  predicate Matches(records: Records, p: string, entry: Scan) {
    p in records && records[p].state == entry.state
    && (entry.state.File? ==> records[p].hash == entry.hash && records[p].size == entry.size)
  }

  /** The visit sends something. */
  predicate Sends(records: Records, rel: string, entry: Scan) {
    if entry.state.Dir? then !(rel in records && records[rel].state.Dir?) else !Agrees(records, rel, entry)
  }

  /** What a visit of `rel` whose upload went to `q` leaves alone. */
  ghost predicate Went(c: Client, m: Moment, m': Moment, rel: string, q: string) {
    Inv(m'.server) && Grows(m.server, m'.server)
    && (q == rel || (IsCopyName(q, rel, c.device) && q !in UsedPaths(m.server.files)))
    && (forall p | p != rel && p != q :: SameRecord(m, m', p))
    && forall p | p != q :: SameVersionAt(c, m.server, m'.server, p)
  }

  lemma SentWent(c: Client, m: Moment, s1: Server, m': Moment, rel: string, sent: Scan, opId: string, clock: Clock,
                 time: int) returns (q: string)
    requires Inv(s1) && Grows(m.server, s1) && OnlyChunksSent(m.server, s1) && IsClean(rel)
             && Key(c.account, c.space, opId) !in m.server.ops && (sent.state.File? || sent.state.Dir?)
    requires var req := Upload(c, m.records, opId, rel, sent);
             var (s2, r) := Commit(s1, c.account, c.space, req, clock);
             r.Ok? && m'.server == s2 && m'.records == Recorded(m.records, CommitMessage(req), r.value, time)
    ensures var req := Upload(c, m.records, opId, rel, sent);
            var r := Commit(s1, c.account, c.space, req, clock).1.value;
            r.version.Some? && q == r.version.value.path && (q != rel ==> r.conflictPath == q != "")
            && WentTo(c, m.server, req.manifest, q)
    ensures Went(c, m, m', rel, q) && AtHead(c, m', q) && Matches(m'.records, q, sent)
  {
    hide Inv, Grows, Commit, IsClean, IsCopyName, UsedPaths, LiveDir, NotDiverted, SameVersionAt;
    var req := Upload(c, m.records, opId, rel, sent);
    UploadWent(c, s1, req, clock);
    q := Commit(s1, c.account, c.space, req, clock).1.value.version.value.path;
    GrowsTransitive(m.server, s1, m'.server);
    NotDivertedTables(m.server, s1, PathKey(c, rel), req.manifest);
    forall p | p != q ensures SameVersionAt(c, m.server, m'.server, p) {
      assert SameVersionAt(c, s1, m'.server, p);
      SameVersionTables(c, m.server, s1, m'.server, p);
    }
  }

  lemma SameVersionTables(c: Client, s: Server, s1: Server, s': Server, p: string)
    requires s1.files == s.files && SameVersionAt(c, s1, s', p)
    ensures SameVersionAt(c, s, s', p)
  {
  }

  lemma SameWent(c: Client, m: Moment, m': Moment, rel: string)
    requires Inv(m.server) && m'.server == m.server
    requires forall p | p != rel :: SameRecord(m, m', p)
    ensures Went(c, m, m', rel, rel)
  {
    hide Inv;
    GrowsReflexive(m.server);
  }

  /** What the chunks of a file cost the server. */
  lemma ChunksSentKeeps(c: Client, s: Server, content: Bytes, chunkSize: nat, entry: Scan)
    requires chunkSize > 0 && Inv(s)
    ensures var s1 := ChunksSent(s, c.account, content, chunkSize, entry);
            Inv(s1) && Grows(s, s1) && OnlyChunksSent(s, s1)
  {
    hide Inv, Grows, SendBlocks;
    GrowsReflexive(s);
    var missing := MissingOf(s, c.account, entry);
    SendingKeeps(s, c.account, Blocks(content, chunkSize), missing);
    SendingOnlySends(s, c.account, Blocks(content, chunkSize), missing);
    ChunksSentIs(s, c.account, content, chunkSize, entry);
  }

  /** One visit of a push: nothing is sent, or the upload becomes the current version where it went. */
  lemma VisitWent(c: Client, m: Moment, m': Moment, rel: string, entry: Scan, chunkSize: nat) returns (q: string)
    requires chunkSize > 0 && Inv(m.server) && IsClean(rel) && (entry.state.File? || entry.state.Dir?)
    requires Visited(c, m, m', rel, entry, chunkSize)
    ensures Went(c, m, m', rel, q)
    ensures if Sends(m.records, rel, entry) then AtHead(c, m', q) && Matches(m'.records, q, entry)
            else q == rel && m'.server == m.server && (AtHead(c, m, rel) ==> AtHead(c, m', rel))
  {
    hide Inv, Grows, Commit, IsClean, Upload, Recorded, ChunksSent, AtHead, Went, WentTo, FollowCopy;
    if !Sends(m.records, rel, entry) {
      q := rel;
      SameWent(c, m, m', rel);
      assert AtHead(c, m, rel) ==> AtHead(c, m', rel) by { TouchedHead(c, m, m', rel); }
    } else if entry.state.Dir? {
      var opId, clock, time :| DirSent(c, m, m', rel, entry, opId, clock, time);
      GrowsReflexive(m.server);
      q := SentWent(c, m, m.server, m', rel, DirScan(entry), opId, clock, time);
    } else {
      var opId, clock, time :| FileSent(c, m, m', rel, entry, chunkSize, opId, clock, time);
      var s1 := ChunksSent(m.server, c.account, ContentAt(m.tree, rel), chunkSize, entry);
      ChunksSentKeeps(c, m.server, ContentAt(m.tree, rel), chunkSize, entry);
      q := SentWent(c, m, s1, m', rel, entry, opId, clock, time);
    }
  }

  lemma TouchedHead(c: Client, m: Moment, m': Moment, rel: string)
    requires m'.server == m.server
             && (m' == m || exists modTime, time :: m'.records == Touched(m.records, rel, modTime, time))
    ensures AtHead(c, m, rel) ==> AtHead(c, m', rel)
  {
  }

  /** A current version that is recorded stays current and recorded while other paths are visited. */
  lemma HeadKept(c: Client, m: Moment, m': Moment, rel: string, q: string, p: string)
    requires Inv(m.server) && Went(c, m, m', rel, q) && AtHead(c, m, p) && p != rel
    ensures AtHead(c, m', p) && SameRecord(m, m', p)
            && m'.server.files[PathKey(c, p)] == m.server.files[PathKey(c, p)]
  {
    InvKeysMatch(m.server);
    UsedIs(m.server, PathKey(c, p));
    hide Inv, Grows, UsedPaths, IsCopyName;
    assert SameRecord(m, m', p) && SameVersionAt(c, m.server, m'.server, p);
  }

  // ---------------------------------------------------------------- what a push stores

  ghost predicate ScanSound(scan: map<string, Scan>) {
    forall p | p in scan :: IsClean(p) && (scan[p].state.File? || scan[p].state.Dir?)
  }

  /** Current versions that are recorded stay so through all visits of other paths. */
  lemma {:induction false} HeadKeptAll(c: Client, m: Moment, m': Moment, scan: map<string, Scan>, todo: set<string>,
                                       chunkSize: nat, p: string)
    requires chunkSize > 0 && todo <= scan.Keys && ScanSound(scan) && Inv(m.server) && p !in todo
    requires VisitsAll(c, m, m', scan, todo, chunkSize)
    ensures Inv(m'.server) && Grows(m.server, m'.server)
    ensures AtHead(c, m, p) ==> AtHead(c, m', p) && SameRecord(m, m', p)
    decreases |todo|
  {
    hide Inv, Grows, Visited, IsClean, AtHead, Went;
    GrowsReflexive(m.server);
    if todo != {} {
      var rel, mid :| rel in todo && Visited(c, m, mid, rel, scan[rel], chunkSize)
                      && VisitsAll(c, mid, m', scan, todo - {rel}, chunkSize);
      var q := VisitWent(c, m, mid, rel, scan[rel], chunkSize);
      WentGrows(c, m, mid, rel, q);
      if AtHead(c, m, p) { HeadKept(c, m, mid, rel, q, p); }
      HeadKeptAll(c, mid, m', scan, todo - {rel}, chunkSize, p);
      GrowsTransitive(m.server, mid.server, m'.server);
    }
  }

  lemma WentGrows(c: Client, m: Moment, m': Moment, rel: string, q: string)
    requires Went(c, m, m', rel, q)
    ensures Inv(m'.server) && Grows(m.server, m'.server)
  {
  }

  /** A record of the current version is not diverted when its path is visited, and afterwards is of what was
      scanned. */
  lemma HeadVisited(c: Client, m: Moment, m': Moment, p: string, entry: Scan, chunkSize: nat)
    requires chunkSize > 0 && Inv(m.server) && IsClean(p) && (entry.state.File? || entry.state.Dir?)
    requires Visited(c, m, m', p, entry, chunkSize) && AtHead(c, m, p)
    ensures AtHead(c, m', p) && Matches(m'.records, p, entry)
  {
    hide Inv, Grows, IsClean, SameVersionAt;
    var q := VisitWent(c, m, m', p, entry, chunkSize);
    if Sends(m.records, p, entry) {
      HeadNotBeside(c, m, m', p, entry, chunkSize, q);
    }
  }

  lemma HeadNotBeside(c: Client, m: Moment, m': Moment, p: string, entry: Scan, chunkSize: nat, q: string)
    requires chunkSize > 0 && Inv(m.server) && IsClean(p) && (entry.state.File? || entry.state.Dir?)
    requires Visited(c, m, m', p, entry, chunkSize) && AtHead(c, m, p) && Sends(m.records, p, entry)
    ensures AtHead(c, m', p) && Matches(m'.records, p, entry)
  {
    hide Inv, Grows, Commit, IsClean, Recorded, ChunksSent, FollowCopy, Went, SameVersionAt;
    if entry.state.Dir? {
      var opId, clock, time :| DirSent(c, m, m', p, entry, opId, clock, time);
      GrowsReflexive(m.server);
      var q := SentWent(c, m, m.server, m', p, DirScan(entry), opId, clock, time);
    } else {
      var opId, clock, time :| FileSent(c, m, m', p, entry, chunkSize, opId, clock, time);
      var s1 := ChunksSent(m.server, c.account, ContentAt(m.tree, p), chunkSize, entry);
      ChunksSentKeeps(c, m.server, ContentAt(m.tree, p), chunkSize, entry);
      var q := SentWent(c, m, s1, m', p, entry, opId, clock, time);
    }
  }

  lemma {:induction false} HeadVisitedAll(c: Client, m: Moment, m': Moment, scan: map<string, Scan>, todo: set<string>,
                                          chunkSize: nat, p: string)
    requires chunkSize > 0 && todo <= scan.Keys && ScanSound(scan) && Inv(m.server) && p in todo
    requires VisitsAll(c, m, m', scan, todo, chunkSize) && AtHead(c, m, p)
    ensures AtHead(c, m', p) && Matches(m'.records, p, scan[p])
    decreases |todo|
  {
    hide Inv, Grows, Visited, IsClean, AtHead, Went;
    var rel, mid :| rel in todo && Visited(c, m, mid, rel, scan[rel], chunkSize)
                    && VisitsAll(c, mid, m', scan, todo - {rel}, chunkSize);
    var q := VisitWent(c, m, mid, rel, scan[rel], chunkSize);
    WentGrows(c, m, mid, rel, q);
    if rel == p {
      HeadVisited(c, m, mid, p, scan[p], chunkSize);
      HeadKeptAll(c, mid, m', scan, todo - {rel}, chunkSize, p);
    } else {
      HeadKept(c, m, mid, rel, q, p);
      HeadVisitedAll(c, mid, m', scan, todo - {rel}, chunkSize, p);
    }
  }

  // ---------------------------------------------------------------- the deletions

  lemma DeleteElsewhere(s: Server, account: string, space: string, req: DeleteRequest, clock: Clock, key: Key)
    requires IsClean(req.path) && key != Key(account, space, req.path)
    ensures SameAt(s.files, Delete(s, account, space, req, clock).0.files, key)
  {
    hide IsClean, CleanRel, Delete;
    CleanRelFixpoint(req.path);
    TrashWindow.DeleteElsewhere(s, account, space, req, clock, key);
  }

  ghost predicate AllCleanPaths(paths: set<string>) { forall p | p in paths :: IsClean(p) }

  /** Deletions leave the entries of all other paths alone. */
  lemma {:induction false} RemovalsSpare(c: Client, m: Moment, m': Moment, todo: set<string>, p: string)
    requires RemovesAll(c, m, m', todo) && AllCleanPaths(todo) && p !in todo
    ensures SameAt(m.server.files, m'.server.files, PathKey(c, p)) && m'.tree == m.tree
    decreases |todo|
  {
    hide IsClean, Delete, Recorded;
    if todo != {} {
      var rel, mid, opId, clock, time :| rel in todo && Removed(c, m, mid, rel, opId, clock, time)
                                         && RemovesAll(c, mid, m', todo - {rel});
      DeleteElsewhere(m.server, c.account, c.space, Removal(c, m.records, opId, rel), clock, PathKey(c, p));
      RemovalsSpare(c, mid, m', todo - {rel}, p);
    }
  }

  lemma RemovedKeepsHead(c: Client, m: Moment, m': Moment, rel: string, opId: string, clock: Clock, time: int,
                         p: string)
    requires Removed(c, m, m', rel, opId, clock, time) && IsClean(rel) && p != rel && AtHead(c, m, p)
    ensures AtHead(c, m', p) && m'.records[p] == m.records[p]
  {
    hide IsClean, Delete;
    DeleteElsewhere(m.server, c.account, c.space, Removal(c, m.records, opId, rel), clock, PathKey(c, p));
  }

  /** The deletion of a current version that is recorded as there leaves its tombstone. */
  lemma RemovedBuries(c: Client, m: Moment, m': Moment, rel: string, opId: string, clock: Clock, time: int)
    requires Removed(c, m, m', rel, opId, clock, time) && IsClean(rel) && AtHead(c, m, rel)
             && !m.records[rel].state.Deleted?
    ensures InTombstone(c, m'.server, rel)
  {
    hide IsClean, Delete, LastAt;
    DeleteBuries(m.server, c.account, c.space, Removal(c, m.records, opId, rel), clock);
  }

  lemma {:induction false} RemovalsBury(c: Client, m: Moment, m': Moment, todo: set<string>, p: string)
    requires RemovesAll(c, m, m', todo) && AllCleanPaths(todo) && p in todo && AtHead(c, m, p)
             && !m.records[p].state.Deleted?
    ensures InTombstone(c, m'.server, p) && m'.tree == m.tree
    decreases |todo|
  {
    hide IsClean, Removed, AtHead, InTombstone;
    var rel, mid, opId, clock, time :| rel in todo && Removed(c, m, mid, rel, opId, clock, time)
                                       && RemovesAll(c, mid, m', todo - {rel});
    RemovedTree(c, m, mid, rel, opId, clock, time);
    if rel == p {
      RemovedBuries(c, m, mid, p, opId, clock, time);
      RemovalsSpare(c, mid, m', todo - {rel}, p);
      TombstoneStays(c, mid.server, m'.server, p);
    } else {
      RemovedKeepsHead(c, m, mid, rel, opId, clock, time, p);
      RemovalsBury(c, mid, m', todo - {rel}, p);
    }
  }

  lemma RemovedTree(c: Client, m: Moment, m': Moment, rel: string, opId: string, clock: Clock, time: int)
    requires Removed(c, m, m', rel, opId, clock, time)
    ensures m'.tree == m.tree
  {
  }

  lemma TombstoneStays(c: Client, s: Server, s': Server, p: string)
    requires InTombstone(c, s, p) && SameAt(s.files, s'.files, PathKey(c, p))
    ensures InTombstone(c, s', p)
  {
  }

  lemma {:induction false} RemovalsKeep(c: Client, m: Moment, m': Moment, todo: set<string>)
    requires RemovesAll(c, m, m', todo) && Inv(m.server)
    ensures Inv(m'.server) && Grows(m.server, m'.server)
    decreases |todo|
  {
    hide Inv, Grows, Delete, Recorded, Removal;
    GrowsReflexive(m.server);
    if todo != {} {
      var rel, mid, opId, clock, time :| rel in todo && Removed(c, m, mid, rel, opId, clock, time)
                                         && RemovesAll(c, mid, m', todo - {rel});
      DeleteInv(m.server, c.account, c.space, Removal(c, m.records, opId, rel), clock);
      DeleteGrows(m.server, c.account, c.space, Removal(c, m.records, opId, rel), clock);
      RemovalsKeep(c, mid, m', todo - {rel});
      GrowsTransitive(m.server, mid.server, m'.server);
    }
  }

  // ---------------------------------------------------------------- the local files during the visits

  /** Every file that is still to be visited is there. */
  ghost predicate FilesThere(t: Tree, scan: map<string, Scan>, todo: set<string>) {
    WellFormed(t) && forall p | p in todo && p in scan && scan[p].state.File? :: IsFile(t, p)
  }

  lemma VisitFollows(c: Client, m: Moment, m': Moment, rel: string, entry: Scan, chunkSize: nat)
      returns (r: CommitResponse)
    requires chunkSize > 0 && Inv(m.server) && IsClean(rel) && (entry.state.File? || entry.state.Dir?)
    requires Visited(c, m, m', rel, entry, chunkSize)
    ensures m'.tree == m.tree || (entry.state.File? && (m'.tree, true) == FollowCopy(m.tree, rel, r))
    ensures m'.tree != m.tree ==> r.conflictPath !in UsedPaths(m.server.files)
  {
    hide Inv, Grows, Commit, IsClean, Upload, Recorded, ChunksSent, AtHead, Went, IsCopyName, UsedPaths, NotDiverted,
         Rename, EnsureParent;
    r := CommitResponse(StatusOk, FileEntry("", "", NoId, "", None, false, NoId, 0), None, false, "", None);
    if entry.state.File? && !Agrees(m.records, rel, entry) {
      var opId, clock, time :| FileSent(c, m, m', rel, entry, chunkSize, opId, clock, time);
      var s1 := ChunksSent(m.server, c.account, ContentAt(m.tree, rel), chunkSize, entry);
      ChunksSentKeeps(c, m.server, ContentAt(m.tree, rel), chunkSize, entry);
      var q := SentWent(c, m, s1, m', rel, entry, opId, clock, time);
      UploadPath(c, m.records, opId, rel, entry);
      r := Commit(s1, c.account, c.space, Upload(c, m.records, opId, rel, entry), clock).1.value;
    }
  }

  lemma UploadPath(c: Client, records: Records, opId: string, rel: string, entry: Scan)
    ensures Upload(c, records, opId, rel, entry).manifest.path == rel
  {
  }

  /** A visit leaves the files that are still to be visited, and the bytes at every other path that is in use on the
      server. */
  lemma VisitKeepsFiles(c: Client, m: Moment, m': Moment, scan: map<string, Scan>, todo: set<string>, rel: string,
                        chunkSize: nat, p: string)
    requires chunkSize > 0 && Inv(m.server) && ScanSound(scan) && todo <= scan.Keys && rel in todo
    requires Visited(c, m, m', rel, scan[rel], chunkSize) && FilesThere(m.tree, scan, todo)
    ensures FilesThere(m'.tree, scan, todo - {rel})
    ensures p != rel && HasVersion(m.server.files, PathKey(c, p)) && IsFile(m.tree, p) ==>
              IsFile(m'.tree, p) && m'.tree[p].data == m.tree[p].data
  {
    hide Inv, WellFormed, FollowCopy, IsClean, Visited, UsedPaths;
    var r := VisitFollows(c, m, m', rel, scan[rel], chunkSize);
    if m'.tree != m.tree {
      InvKeysMatch(m.server);
      forall x | IsFile(m.tree, x) && x != rel
        ensures WellFormed(m'.tree) && IsFile(m'.tree, x)
                && (x != r.conflictPath ==> m'.tree[x].data == m.tree[x].data)
      {
        FollowKeeps(m.tree, rel, r, x);
      }
      FollowWellFormed(m.tree, rel, r);
      if HasVersion(m.server.files, PathKey(c, p)) { UsedIs(m.server, PathKey(c, p)); }
    }
  }

  lemma FollowWellFormed(t: Tree, rel: string, r: CommitResponse)
    requires WellFormed(t)
    ensures WellFormed(FollowCopy(t, rel, r).0)
  {
    hide WellFormed, Rename, EnsureParent;
    EnsureParentWellFormed(t, r.conflictPath);
    RenameWellFormed(EnsureParent(t, r.conflictPath).0, rel, r.conflictPath);
  }

  lemma {:induction false} BytesStay(c: Client, m: Moment, m': Moment, scan: map<string, Scan>, todo: set<string>,
                                     chunkSize: nat, p: string, data: Bytes)
    requires chunkSize > 0 && Inv(m.server) && ScanSound(scan) && todo <= scan.Keys && p !in todo
    requires VisitsAll(c, m, m', scan, todo, chunkSize) && FilesThere(m.tree, scan, todo)
    requires AtHead(c, m, p) && Holds(m.tree, p, data)
    ensures Holds(m'.tree, p, data)
    decreases |todo|
  {
    hide Inv, Visited, IsClean, Went, FilesThere;
    if todo != {} {
      var rel, mid :| rel in todo && Visited(c, m, mid, rel, scan[rel], chunkSize)
                      && VisitsAll(c, mid, m', scan, todo - {rel}, chunkSize);
      var q := VisitWent(c, m, mid, rel, scan[rel], chunkSize);
      WentGrows(c, m, mid, rel, q);
      HeadKept(c, m, mid, rel, q, p);
      VisitKeepsFiles(c, m, mid, scan, todo, rel, chunkSize, p);
      BytesStay(c, mid, m', scan, todo - {rel}, chunkSize, p, data);
    }
  }

  // ---------------------------------------------------------------- what is live after a push

  ghost predicate CleanRecords(records: Records) { forall p | p in records :: IsClean(p) }

  lemma {:induction false} VisitsCleanRecords(c: Client, m: Moment, m': Moment, scan: map<string, Scan>,
                                              todo: set<string>, chunkSize: nat)
    requires chunkSize > 0 && todo <= scan.Keys && ScanSound(scan) && Inv(m.server) && CleanRecords(m.records)
    requires VisitsAll(c, m, m', scan, todo, chunkSize)
    ensures CleanRecords(m'.records) && Inv(m'.server) && Grows(m.server, m'.server)
    decreases |todo|
  {
    hide Inv, Grows, Visited, IsClean;
    GrowsReflexive(m.server);
    if todo != {} {
      var rel, mid :| rel in todo && Visited(c, m, mid, rel, scan[rel], chunkSize)
                      && VisitsAll(c, mid, m', scan, todo - {rel}, chunkSize);
      VisitCleanRecords(c, m, mid, rel, scan[rel], chunkSize);
      VisitsCleanRecords(c, mid, m', scan, todo - {rel}, chunkSize);
      GrowsTransitive(m.server, mid.server, m'.server);
    }
  }

  lemma VisitCleanRecords(c: Client, m: Moment, m': Moment, rel: string, entry: Scan, chunkSize: nat)
    requires chunkSize > 0 && Inv(m.server) && IsClean(rel) && (entry.state.File? || entry.state.Dir?)
    requires Visited(c, m, m', rel, entry, chunkSize) && CleanRecords(m.records)
    ensures CleanRecords(m'.records) && Inv(m'.server) && Grows(m.server, m'.server)
  {
    hide Inv, Grows, Visited, IsClean, IsCopyName, SameVersionAt, LiveDir;
    var q := VisitWent(c, m, m', rel, entry, chunkSize);
    if HasVersion(m'.server.files, PathKey(c, q)) { CopyIsClean(m'.server, PathKey(c, q)); }
    forall p | p in m'.records ensures IsClean(p) { assert p != rel && p != q ==> SameRecord(m, m', p); }
  }

  /** The rest of a push after the upload of one file, which went to `q`: afterwards it is live there if and only if
      the scan has that path, and with the same content should it still be to be visited.  So a copy that was put
      beside is deleted on the server by the same push, unless the scan happens to have its name; its bytes stay
      where they are. */
  lemma LiveAfterUpload(c: Client, m: Moment, mid: Moment, m': Moment, scan: map<string, Scan>, todo: set<string>,
                        chunkSize: nat, q: string, hash: string, size: int)
    requires chunkSize > 0 && todo <= scan.Keys && ScanSound(scan) && Inv(m.server) && CleanRecords(m.records)
    requires AtHead(c, m, q) && m.records[q].state.File? && m.records[q].hash == hash && m.records[q].size == size
    requires VisitsAll(c, m, mid, scan, todo, chunkSize) && RemovesAll(c, mid, m', GonePaths(mid.records, scan))
    ensures LiveFile(c, m'.server, q, hash, size)
       <==> q in scan && (q in todo ==> scan[q].state.File? && scan[q].hash == hash && scan[q].size == size)
    ensures q !in scan ==> InTombstone(c, m'.server, q)
    ensures q !in todo && FilesThere(m.tree, scan, todo) && IsFile(m.tree, q) ==> Holds(m'.tree, q, m.tree[q].data)
  {
    hide Inv, VisitsAll, RemovesAll, IsClean, AtHead, LiveFile, FilesThere;
    VisitsCleanRecords(c, m, mid, scan, todo, chunkSize);
    var gone := GonePaths(mid.records, scan);
    if q in todo {
      HeadVisitedAll(c, m, mid, scan, todo, chunkSize, q);
    } else {
      HeadKeptAll(c, m, mid, scan, todo, chunkSize, q);
      if FilesThere(m.tree, scan, todo) && IsFile(m.tree, q) {
        BytesStay(c, m, mid, scan, todo, chunkSize, q, m.tree[q].data);
      }
    }
    HeadRecorded(c, m, q);
    HeadRecorded(c, mid, q);
    assert mid.records[q].state.File? <==> q !in todo || scan[q].state.File?;
    if q in gone {
      RemovalsBury(c, mid, m', gone, q);
      TombstoneNotLive(c, m'.server, q, hash, size);
    } else {
      RemovalsSpare(c, mid, m', gone, q);
      HeadIsLive(c, mid, m'.server, q, hash, size);
    }
  }

  lemma HeadRecorded(c: Client, m: Moment, p: string)
    requires AtHead(c, m, p)
    ensures p in m.records
  {
  }

  lemma TombstoneNotLive(c: Client, s: Server, p: string, hash: string, size: int)
    requires InTombstone(c, s, p)
    ensures !LiveFile(c, s, p, hash, size)
  {
  }

  lemma HeadIsLive(c: Client, m: Moment, s: Server, p: string, hash: string, size: int)
    requires AtHead(c, m, p) && SameAt(m.server.files, s.files, PathKey(c, p))
    ensures LiveFile(c, s, p, hash, size)
       <==> m.records[p].state.File? && m.records[p].hash == hash && m.records[p].size == size
  {
  }

  /** The same from the upload on: it stays at its own path exactly if nothing was there, or just the version its
      record names.  If it went beside, to a name that was not scanned, it is a tombstone on the server once the push
      is done, while the bytes stand under that name locally. */
  lemma LiveAfterPush(c: Client, m: Moment, m1: Moment, mid: Moment, m': Moment, scan: map<string, Scan>,
                      todo: set<string>, rel: string, chunkSize: nat, opId: string, clock: Clock, time: int)
      returns (q: string)
    requires chunkSize > 0 && todo <= scan.Keys && ScanSound(scan) && Inv(m.server) && CleanRecords(m.records)
             && FilesThere(m.tree, scan, todo) && rel in todo && scan[rel].state.File?
    requires !Agrees(m.records, rel, scan[rel]) && FileSent(c, m, m1, rel, scan[rel], chunkSize, opId, clock, time)
    requires VisitsAll(c, m1, mid, scan, todo - {rel}, chunkSize)
             && RemovesAll(c, mid, m', GonePaths(mid.records, scan))
    ensures WentTo(c, m.server, Upload(c, m.records, opId, rel, scan[rel]).manifest, q)
    ensures LiveFile(c, m'.server, q, scan[rel].hash, scan[rel].size)
       <==> q in scan && (q in todo && q != rel ==>
                            scan[q].state.File? && scan[q].hash == scan[rel].hash && scan[q].size == scan[rel].size)
    ensures q !in scan ==> InTombstone(c, m'.server, q) && Holds(m'.tree, q, m.tree[rel].data)
  {
    hide Inv, VisitsAll, RemovesAll, IsClean, AtHead, LiveFile, Commit, Upload, Recorded, ChunksSent, UsedPaths, Went,
         IsCopyName, WentTo, Grows;
    var s1 := ChunksSent(m.server, c.account, ContentAt(m.tree, rel), chunkSize, scan[rel]);
    ChunksSentKeeps(c, m.server, ContentAt(m.tree, rel), chunkSize, scan[rel]);
    q := SentWent(c, m, s1, m1, rel, scan[rel], opId, clock, time);
    UploadPath(c, m.records, opId, rel, scan[rel]);
    assert Visited(c, m, m1, rel, scan[rel], chunkSize);
    WentGrows(c, m, m1, rel, q);
    VisitCleanRecords(c, m, m1, rel, scan[rel], chunkSize);
    VisitKeepsFiles(c, m, m1, scan, todo, rel, chunkSize, q);
    var r := Commit(s1, c.account, c.space, Upload(c, m.records, opId, rel, scan[rel]), clock).1.value;
    FollowedCopy(m.tree, rel, r, m.tree[rel].data);
    LiveAfterUpload(c, m1, mid, m', scan, todo - {rel}, chunkSize, q, scan[rel].hash, scan[rel].size);
  }

  // ---------------------------------------------------------------- what a push stores

  /** Where a push put a file: its version is stored for this account and space, at its path or beside it; and at its
      path, live. */
  ghost predicate StoredFor(c: Client, s: Server, p: string, q: string, hash: string, size: int) {
    (q == p || IsCopyName(q, p, c.device)) && OnServer(c, s, q, hash, size)
    && (q == p ==> LiveFile(c, s, p, hash, size))
  }

  lemma MatchingHeadIsLive(c: Client, m: Moment, p: string, entry: Scan)
    requires AtHead(c, m, p) && Matches(m.records, p, entry) && entry.state.File?
    ensures LiveFile(c, m.server, p, entry.hash, entry.size)
  {
  }

  /** The visit of a file whose record does not agree, or is that of the current version. */
  lemma OwnVisit(c: Client, m: Moment, m': Moment, p: string, entry: Scan, chunkSize: nat) returns (q: string)
    requires chunkSize > 0 && Inv(m.server) && IsClean(p) && entry.state.File?
    requires Visited(c, m, m', p, entry, chunkSize) && (!Agrees(m.records, p, entry) || AtHead(c, m, p))
    ensures Inv(m'.server) && Grows(m.server, m'.server) && (q == p || IsCopyName(q, p, c.device))
    ensures AtHead(c, m', q) && Matches(m'.records, q, entry)
  {
    hide Inv, Grows, IsClean, AtHead, IsCopyName, UsedPaths, SameVersionAt, FileSent;
    q := VisitWent(c, m, m', p, entry, chunkSize);
  }

  lemma SameMatches(m: Moment, m': Moment, p: string, entry: Scan)
    requires SameRecord(m, m', p) && Matches(m.records, p, entry)
    ensures Matches(m'.records, p, entry)
  {
  }

  lemma OwnStored(c: Client, m: Moment, m': Moment, scan: map<string, Scan>, todo: set<string>, chunkSize: nat,
                  p: string, q: string)
    requires chunkSize > 0 && todo <= scan.Keys && ScanSound(scan) && Inv(m.server) && p !in todo && p in scan
             && scan[p].state.File?
    requires VisitsAll(c, m, m', scan, todo, chunkSize) && (q == p || IsCopyName(q, p, c.device))
    requires AtHead(c, m, q) && Matches(m.records, q, scan[p])
    ensures Inv(m'.server) && Grows(m.server, m'.server)
    ensures StoredFor(c, m'.server, p, q, scan[p].hash, scan[p].size)
    ensures q == p || q !in scan ==> AtHead(c, m', q) && Matches(m'.records, q, scan[p])
  {
    hide Inv, Grows, IsClean, AtHead, IsCopyName, VisitsAll, Matches, OnServer, LiveFile;
    MatchingHeadIsLive(c, m, q, scan[p]);
    LiveIsOnServer(c, m.server, q, scan[p].hash, scan[p].size);
    HeadKeptAll(c, m, m', scan, todo, chunkSize, p);
    StaysOnServer(c, m.server, m'.server, q, scan[p].hash, scan[p].size);
    if q == p || q !in scan {
      HeadKeptAll(c, m, m', scan, todo, chunkSize, q);
      SameMatches(m, m', q, scan[p]);
      MatchingHeadIsLive(c, m', q, scan[p]);
    }
  }

  /** All visits: a scanned file whose record does not agree, or is that of a current version, is stored. */
  lemma {:induction false} VisitsStore(c: Client, m: Moment, m': Moment, scan: map<string, Scan>, todo: set<string>,
                                       chunkSize: nat, p: string) returns (q: string)
    requires chunkSize > 0 && todo <= scan.Keys && ScanSound(scan) && Inv(m.server) && p in todo
             && scan[p].state.File?
    requires VisitsAll(c, m, m', scan, todo, chunkSize) && (!Agrees(m.records, p, scan[p]) || AtHead(c, m, p))
    ensures Inv(m'.server) && Grows(m.server, m'.server)
    ensures StoredFor(c, m'.server, p, q, scan[p].hash, scan[p].size)
    ensures q == p || q !in scan ==> AtHead(c, m', q) && Matches(m'.records, q, scan[p])
    decreases |todo|
  {
    hide Inv, Grows, Visited, IsClean, AtHead, StoredFor, IsCopyName, UsedPaths, SameVersionAt, Matches;
    var rel, mid :| rel in todo && Visited(c, m, mid, rel, scan[rel], chunkSize)
                    && VisitsAll(c, mid, m', scan, todo - {rel}, chunkSize);
    if rel == p {
      q := OwnVisit(c, m, mid, p, scan[p], chunkSize);
      OwnStored(c, mid, m', scan, todo - {p}, chunkSize, p, q);
    } else {
      StillToStore(c, m, mid, rel, scan[rel], chunkSize, p, scan[p]);
      q := VisitsStore(c, mid, m', scan, todo - {rel}, chunkSize, p);
    }
    GrowsTransitive(m.server, mid.server, m'.server);
  }

  lemma StillToStore(c: Client, m: Moment, m': Moment, rel: string, entry: Scan, chunkSize: nat, p: string, own: Scan)
    requires chunkSize > 0 && Inv(m.server) && IsClean(rel) && (entry.state.File? || entry.state.Dir?)
    requires Visited(c, m, m', rel, entry, chunkSize) && p != rel && (!Agrees(m.records, p, own) || AtHead(c, m, p))
    ensures Inv(m'.server) && Grows(m.server, m'.server) && (!Agrees(m'.records, p, own) || AtHead(c, m', p))
  {
    hide Inv, Grows, Visited, IsClean, AtHead, IsCopyName, UsedPaths, SameVersionAt;
    var x := VisitWent(c, m, m', rel, entry, chunkSize);
    if p != x {
      assert SameRecord(m, m', p);
      if AtHead(c, m, p) { HeadKept(c, m, m', rel, x, p); }
    }
  }

  // ---------------------------------------------------------------- what is stored after a push

  /** A successful push stores every unsynced file for its account and space, live at its path or beside it.  What went
      beside is a tombstone afterwards, unless the scan happens to have its name: the second loop does not find it. */
  lemma PushStoresUnsynced(c: Client, m: Moment, m': Moment, chunkSize: nat, p: string, data: Bytes)
      returns (q: string)
    requires chunkSize > 0 && Inv(m.server) && CleanTree(m.tree) && CleanRecords(m.records)
    requires Pushed(c, m, m', chunkSize)
    requires Unsynced(m.records, m.tree, p, data) && Scanned(m.tree, p)
    ensures Inv(m'.server) && StoredFor(c, m'.server, p, q, HashBytes(data), |data|)
    ensures q != p && !Scanned(m.tree, q) ==> InTombstone(c, m'.server, q)
  {
    hide Inv, Grows, VisitsAll, RemovesAll, AtHead, OnServer, LiveFile, IsClean, Blocks, IsCopyName, InTombstone;
    var dirTimes: map<string, int>, mid :|
        var scan := ScanOf(m.tree, chunkSize, dirTimes);
        VisitsAll(c, m, mid, scan, scan.Keys, chunkSize) && RemovesAll(c, mid, m', GonePaths(mid.records, scan));
    var scan := ScanOf(m.tree, chunkSize, dirTimes);
    q := VisitsStore(c, m, mid, scan, scan.Keys, chunkSize, p);
    VisitsCleanRecords(c, m, mid, scan, scan.Keys, chunkSize);
    var gone := GonePaths(mid.records, scan);
    RemovalsKeep(c, mid, m', gone);
    StaysOnServer(c, mid.server, m'.server, q, HashBytes(data), |data|);
    RemovalsSpare(c, mid, m', gone, p);
    LiveStays(c, mid.server, m'.server, p, HashBytes(data), |data|);
    if q != p && q !in scan { RemovalsBury(c, mid, m', gone, q); }
  }

  lemma LiveStays(c: Client, s: Server, s': Server, p: string, hash: string, size: int)
    requires SameAt(s.files, s'.files, PathKey(c, p))
    ensures LiveFile(c, s, p, hash, size) ==> LiveFile(c, s', p, hash, size)
  {
  }

  /** What the server has at a path under a file's digest and size may be read by the account and joins to the file's
      bytes, or two different byte strings with one digest are at hand. */
  lemma StoredBytes(c: Client, s: Server, p: string, data: Bytes)
    requires Inv(s) && OnServer(c, s, p, HashBytes(data), |data|)
    ensures exists v :: InHistory(s.versions, v) && KeyOf(v) == PathKey(c, p) && v.state.File?
                        && Granted(s.grants, v)
                        && (Assemble(s.chunks, v.chunks) == data || Collision(data, Assemble(s.chunks, v.chunks)))
  {
    hide HistoriesOk, UniqueVersionIds, FilesOk, DistinctFileIds, LogOk, WindowOk, ReplayOk, ChunksOk, OpsOk, Granted;
    var v :| InHistory(s.versions, v) && KeyOf(v) == PathKey(c, p) && v.state.File? && v.hash == HashBytes(data)
             && v.size == |data|;
    var i :| 0 <= i < |s.versions[v.fileId]| && s.versions[v.fileId][i] == v;
    assert Available(s.chunks, s.grants, s.versions[v.fileId][i]);
  }

  lemma {:induction false} PullCleanRecords(c: Copy, device: string, root: string, events: seq<Event>, envs: seq<Env>)
    requires CleanRecords(c.records)
    ensures CleanRecords(PullEvents(c, device, root, events, envs).0.records)
    decreases |events|
  {
    hide ApplyVersion, CleanRel, IsClean;
    if events == [] || envs == [] {
    } else if OwnEvent(device, root, events[0]) {
      PullCleanRecords(Advance(c, events[0]), device, root, events[1..], envs[1..]);
    } else {
      var (c1, done) := ApplyVersion(c, device, events[0].version, envs[0]);
      ApplyRecords(c, device, events[0].version, envs[0]);
      CleanRelCharacterized(events[0].version.path);
      if done { PullCleanRecords(Advance(c1, events[0]), device, root, events[1..], envs[1..]); }
    }
  }

  lemma PulledRecords(c: Copy, device: string, root: string, answer: seq<Event>, envs: seq<Env>, c': Copy)
    requires CleanRecords(c.records) && PullEnds(c, device, root, answer, envs, c', true)
    ensures CleanRecords(c'.records)
  {
    hide CleanRecords, PullEvents, SortBySeq, DirectoryCleanup.RemoveEach;
    PullCleanRecords(c, device, root, SortBySeq(answer), envs);
  }

  /** No loss over a successful `syncOnce`: bytes that were unsynced before, and that its first pull spares, are then
      stored by the server for this account and space, live at the path where they landed or beside it. */
  lemma SyncOnceStores(c: Client, s: Server, before: Copy, answer: seq<Event>, envs: seq<Env>, pulled: Copy,
                       pushed: Moment, chunkSize: nat, p: string, data: Bytes) returns (q: string)
    requires chunkSize > 0 && Inv(s) && WellFormed(before.tree) && CleanTree(before.tree)
             && CleanRecords(before.records)
    requires PullEnds(before, c.device, c.root, answer, envs, pulled, true)
    requires Pushed(c, Moment(s, pulled.records, pulled.tree), pushed, chunkSize)
    requires Unsynced(before.records, before.tree, p, data) && Honest(before.records, before.tree)
    requires Spared(before, c.device, c.root, SortBySeq(answer), envs, p, data)
    requires var q := LandsAfter(before, c.device, c.root, SortBySeq(answer), envs, p);
             q !in DeletedDirs(pulled.records) && !Within(q, STATE_DIR)
    ensures var landed := LandsAfter(before, c.device, c.root, SortBySeq(answer), envs, p);
            StoredFor(c, pushed.server, landed, q, HashBytes(data), |data|)
            && (q != landed && !Scanned(pulled.tree, q) ==> InTombstone(c, pushed.server, q))
  {
    hide Inv, WellFormed, CleanTree, PullEnds, Pushed, Honest, Spared, LandsAfter, SortBySeq, StoredFor;
    PullNeverDestroys(before, c.device, c.root, answer, envs, pulled, true, p, data);
    PullEndsClean(before, c.device, c.root, answer, envs, pulled, true);
    PulledRecords(before, c.device, c.root, answer, envs, pulled);
    var landed := LandsAfter(before, c.device, c.root, SortBySeq(answer), envs, p);
    q := PushStoresUnsynced(c, Moment(s, pulled.records, pulled.tree), pushed, chunkSize, landed, data);
  }
}
