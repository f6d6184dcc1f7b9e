/** A client that pulls, pushes and pulls again, whatever others do meanwhile and wherever it is cut short: once it
    gets through undisturbed, it holds the server's live files (internal/client/sync.go, internal/server/store.go). */
module ActiveReplica {
  import opened Model
  import opened Paths
  import opened Text
  import opened ClientRecords
  import opened LocalFiles
  import opened StoreSpec
  import opened StoreInvariant
  import opened StoreGrowth
  import opened StoreCommit
  import StoreTrash
  import opened NoLostUpdate
  import EventWindow
  import FileChunks
  import DirectoryCleanup
  import opened ClientEngine
  import opened SyncProtocol
  import opened EngineRuns
  import opened PushStores
  import opened PushEffects
  import opened RecordsInStep
  import opened InterleavedPush
  import opened PassiveReplica

  // ---------------------------------------------------------------- one answered upload

  /** Every record is in step with the last event of its path. */
  ghost predicate InStep(c: Client, s: Server, records: Records) {
    forall p :: Settles(records, p, LastOf(c, s, p))
  }

  /** An upload for this path is not diverted. */
  predicate MaySend(c: Client, s: Server, records: Records, p: string, state: EntryState) {
    Tracks(records, p, LastOf(c, s, p)) || (state.Dir? && Loose(records, p, LastOf(c, s, p)))
  }

  lemma SentNotDiverted(c: Client, s: Server, records: Records, opId: string, rel: string, sent: Scan)
    requires Inv(s) && MaySend(c, s, records, rel, sent.state)
    ensures NotDiverted(s, PathKey(c, rel), Upload(c, records, opId, rel, sent).manifest)
  {
    if HasVersion(s.files, PathKey(c, rel)) { CurrentIsLast(c, s, rel); }
    hide Inv, LastAt, LiveDir;
  }

  /** The record of an answered upload is in step. */
  lemma AnswerTracks(c: Client, s: Server, s': Server, records: Records, opId: string, rel: string, sent: Scan,
                     r: CommitResponse, time: int)
    requires Inv(s') && (sent.state.File? || sent.state.Dir?) && r.version.Some?
    requires PushEffects.Answered(s, s', OriginOf(c), Upload(c, records, opId, rel, sent).manifest, r)
    ensures var records' := Recorded(records, CommitMessage(Upload(c, records, opId, rel, sent)), r, time);
            var v := r.version.value;
            v.path == rel && records' == records[rel := StateFromVersion(v, time)]
            && Tracks(records', rel, LastOf(c, s', rel)) && Matches(records', rel, sent)
            && (sent.state.Dir? ==> IsLiveDir(s'.files, PathKey(c, rel)))
  {
    hide Inv, LastAt, OnlyDirsMade, SameKey, LiveDir, Recorded, IsLiveDir;
    AnsweredRecords(c, s, s', records, opId, rel, sent, r, time);
    CurrentIsLast(c, s', rel);
    AnsweredVersion(c, s, s', Upload(c, records, opId, rel, sent).manifest, r);
    AnsweredDir(c, s, s', Upload(c, records, opId, rel, sent).manifest, r);
    hide PushEffects.Answered;
  }

  lemma AnsweredDir(c: Client, s: Server, s': Server, m: Manifest, r: CommitResponse)
    requires PushEffects.Answered(s, s', OriginOf(c), m, r)
    ensures m.state.Dir? ==> IsLiveDir(s'.files, PathKey(c, m.path))
  {
    hide OnlyDirsMade, LastAt;
  }

  /** An upload from a record whose file is not at its path any more is refused. */
  lemma ForlornRefused(c: Client, s: Server, records: Records, opId: string, rel: string, sent: Scan, clock: Clock)
    requires Inv(s) && Key(c.account, c.space, opId) !in s.ops && IsClean(rel) && (sent.state.File? || sent.state.Dir?)
    requires Forlorn(records, rel, LastOf(c, s, rel))
    ensures Commit(s, c.account, c.space, Upload(c, records, opId, rel, sent), clock).1.Err?
  {
    LiveAtLast(c, s, rel);
    hide Inv, LastAt, LiveDir, Commit, IsClean, HasVersion;
    OtherIdRefused(c, s, Upload(c, records, opId, rel, sent), clock);
  }

  /** A live last event is the current version. */
  lemma LiveAtLast(c: Client, s: Server, p: string)
    requires Inv(s) && LastOf(c, s, p).Some? && !LastOf(c, s, p).value.state.Deleted?
    ensures HasVersion(s.files, PathKey(c, p)) && s.files[PathKey(c, p)].current == LastOf(c, s, p)
            && s.files[PathKey(c, p)].fileId == LastOf(c, s, p).value.fileId
  {
    if HasVersion(s.files, PathKey(c, p)) {
      CurrentIsLast(c, s, p);
    } else {
      PrunedLast(c, s, p);
    }
  }

  // ---------------------------------------------------------------- the visits

  /** A path while `todo` is still to be visited. */
  ghost predicate PathOk(c: Client, m: Moment, scan: map<string, Scan>, todo: set<string>, p: string) {
    var last := LastOf(c, m.server, p);
    Settles(m.records, p, last)
    && (p in scan && scan[p].state.File? ==> !Loose(m.records, p, last))
    && (p in scan && p !in todo ==> Tracks(m.records, p, last) && Matches(m.records, p, scan[p]))
  }

  ghost predicate Pushing(c: Client, m: Moment, scan: map<string, Scan>, todo: set<string>) {
    forall p :: PathOk(c, m, scan, todo, p)
  }

  predicate IsParent(scan: map<string, Scan>, d: string) { exists q :: q in scan && d in Above(q) }

  ghost predicate ScanClosed(scan: map<string, Scan>) {
    forall d | IsParent(scan, d) :: d in scan && scan[d].state.Dir?
  }

  /** No file of the client goes by a name under which the server would put a directory for a parent whose own place
      is taken by a file or a tombstone. */
  ghost predicate CopiesClear(c: Client, m: Moment, scan: map<string, Scan>) {
    forall d, p | IsParent(scan, d) && Taken(m.server.files, PathKey(c, d)) && IsCopyName(p, d, c.device) ::
      p in UsedPaths(m.server.files) || !(p in scan && scan[p].state.File?)
  }

  /** What a visit of `rel` that sent something did to the other paths. */
  ghost predicate SentFor(c: Client, m: Moment, m': Moment, rel: string) {
    (forall p | p != rel :: OnlyDirsMade(m.server, m'.server, OriginOf(c), Ancestors(rel), PathKey(c, p)))
    && (forall p | p != rel ::
          (p in m'.records <==> p in m.records) && (p in m.records ==> m'.records[p] == m.records[p]))
    && m'.tree == m.tree
  }

  lemma AncestorIsParent(scan: map<string, Scan>, rel: string, i: nat)
    requires rel in scan && IsClean(rel) && i < |Ancestors(rel)|
    ensures IsParent(scan, Ancestors(rel)[i]) && Ancestors(rel)[i] != rel
  {
    AncestorsClean(rel, i);
    AboveIsUnder(rel, Ancestors(rel)[i]);
  }

  lemma SamePathOk(c: Client, m: Moment, m': Moment, scan: map<string, Scan>, todo: set<string>, rel: string, p: string)
    requires PathOk(c, m, scan, todo, p) && p != rel && SameKey(m.server, m'.server, PathKey(c, p))
    requires (p in m'.records <==> p in m.records) && (p in m.records ==> m'.records[p] == m.records[p])
    ensures PathOk(c, m', scan, todo - {rel}, p)
  {
  }

  /** A directory made for a missing parent, in its place or beside it. */
  lemma MadePathOk(c: Client, m: Moment, m': Moment, scan: map<string, Scan>, todo: set<string>, rel: string, p: string,
                   d: string)
    requires Inv(m.server) && Inv(m'.server) && PathOk(c, m, scan, todo, p) && p != rel
    requires CopiesClear(c, m, scan) && IsParent(scan, d) && d in scan && scan[d].state.Dir? && ScanSound(scan)
    requires DirMade(m.server, m'.server, OriginOf(c), PathKey(c, p), d)
    requires (p in m'.records <==> p in m.records) && (p in m.records ==> m'.records[p] == m.records[p])
    ensures PathOk(c, m', scan, todo - {rel}, p)
  {
    hide Inv, LastAt, LiveDir, UsedPaths, IsCopyName, IsParent, HasVersion, CopiesClear, DirMade, PathKey, IsClean;
    MadeSettles(c, m.server, m'.server, m.records, p, d);
    SettlesSame(m.records, m'.records, p, LastOf(c, m'.server, p));
    PrunedLast(c, m.server, p);
    MadeNotFile(c, m, m', scan, p, d);
  }

  lemma MadeNotFile(c: Client, m: Moment, m': Moment, scan: map<string, Scan>, p: string, d: string)
    requires CopiesClear(c, m, scan) && IsParent(scan, d) && d in scan && scan[d].state.Dir?
    requires DirMade(m.server, m'.server, OriginOf(c), PathKey(c, p), d)
    ensures !(p in scan && scan[p].state.File?)
  {
    hide LastAt, LiveDir, UsedPaths, IsCopyName, IsParent;
  }

  lemma OtherPathOk(c: Client, m: Moment, m': Moment, scan: map<string, Scan>, todo: set<string>, rel: string,
                    p: string)
    requires Inv(m.server) && Inv(m'.server) && PathOk(c, m, scan, todo, p) && p != rel && rel in scan && IsClean(rel)
    requires ScanClosed(scan) && ScanSound(scan) && CopiesClear(c, m, scan) && SentFor(c, m, m', rel)
    ensures PathOk(c, m', scan, todo - {rel}, p)
  {
    hide Inv, PathOk, DirMade, SameKey, CopiesClear, Ancestors, IsClean, IsParent;
    var dirs := Ancestors(rel);
    assert OnlyDirsMade(m.server, m'.server, OriginOf(c), dirs, PathKey(c, p));
    if SameKey(m.server, m'.server, PathKey(c, p)) {
      SamePathOk(c, m, m', scan, todo, rel, p);
    } else {
      var i :| 0 <= i < |dirs| && DirMade(m.server, m'.server, OriginOf(c), PathKey(c, p), dirs[i]);
      AncestorIsParent(scan, rel, i);
      MadePathOk(c, m, m', scan, todo, rel, p, dirs[i]);
    }
  }

  /** A visit that sent something leaves all paths right, its own included. */
  lemma SentOk(c: Client, m: Moment, m': Moment, scan: map<string, Scan>, todo: set<string>, rel: string)
    requires Inv(m.server) && Inv(m'.server) && Pushing(c, m, scan, todo) && rel in scan && IsClean(rel)
    requires ScanClosed(scan) && ScanSound(scan) && CopiesClear(c, m, scan) && SentFor(c, m, m', rel)
    requires Tracks(m'.records, rel, LastOf(c, m'.server, rel)) && Matches(m'.records, rel, scan[rel])
    ensures Pushing(c, m', scan, todo - {rel})
  {
    hide Inv, PathOk, CopiesClear, SentFor, IsClean, ScanClosed, LastAt;
    forall p ensures PathOk(c, m', scan, todo - {rel}, p) {
      assert PathOk(c, m, scan, todo, p);
      if p != rel {
        OtherPathOk(c, m, m', scan, todo, rel, p);
      } else {
        OwnPathOk(c, m', scan, todo, rel);
      }
    }
  }

  lemma OwnPathOk(c: Client, m': Moment, scan: map<string, Scan>, todo: set<string>, rel: string)
    requires Tracks(m'.records, rel, LastOf(c, m'.server, rel)) && rel in scan && Matches(m'.records, rel, scan[rel])
    ensures PathOk(c, m', scan, todo - {rel}, rel)
  {
    hide LastAt;
  }

  /** A parent whose place is taken after a visit had it taken before. */
  lemma TakenBefore(c: Client, m: Moment, m': Moment, scan: map<string, Scan>, rel: string, d: string)
    requires rel in scan && IsClean(rel) && SentFor(c, m, m', rel)
    requires d == rel ==> IsLiveDir(m'.server.files, PathKey(c, rel))
    requires Taken(m'.server.files, PathKey(c, d))
    ensures Taken(m.server.files, PathKey(c, d))
  {
  }

  lemma CopiesStayClear(c: Client, m: Moment, m': Moment, scan: map<string, Scan>, rel: string)
    requires Inv(m.server) && Inv(m'.server) && CopiesClear(c, m, scan) && ScanClosed(scan)
    requires rel in scan && IsClean(rel) && SentFor(c, m, m', rel)
             && m.server.files.Keys <= m'.server.files.Keys
    requires PathKey(c, rel) in m'.server.files
    requires scan[rel].state.Dir? ==> IsLiveDir(m'.server.files, PathKey(c, rel))
    ensures CopiesClear(c, m', scan)
  {
    hide Inv, Taken, UsedPaths, IsCopyName, IsClean, LiveDir, OnlyDirsMade, IsParent, KeysMatch;
    InvKeysMatch(m.server);
    InvKeysMatch(m'.server);
    UsedIs(m'.server, PathKey(c, rel));
    forall d, p | IsParent(scan, d) && Taken(m'.server.files, PathKey(c, d)) && IsCopyName(p, d, c.device)
      ensures p in UsedPaths(m'.server.files) || !(p in scan && scan[p].state.File?)
    {
      TakenBefore(c, m, m', scan, rel, d);
      UsedStays(m.server, m'.server, p);
    }
  }

  // ---------------------------------------------------------------- one visit

  lemma CommitKeepsKeys(s: Server, account: string, space: string, req: CommitRequest, clock: Clock)
    requires Inv(s)
    ensures s.files.Keys <= Commit(s, account, space, req, clock).0.files.Keys
  {
    hide Inv, CheckCommit, CommitLocked, Ready;
    var checked := CheckCommit(s, account, space, req);
    if checked.Ok? {
      var s0 := GrantEmpty(s, account, req.manifest, checked.value);
      CheckCommitSound(s, account, space, req);
      GrantEmptyInv(s, account, req.manifest, checked.value);
      GrantEmptyGrows(s, account, req.manifest, checked.value);
      ReadyStable(s, s0, account, req.manifest, checked.value);
      CommitLosesNothing(s0, account, space, req, checked.value, clock);
    }
  }

  lemma MaySendAfterChunks(c: Client, s: Server, s1: Server, records: Records, p: string, state: EntryState)
    requires OnlyChunksSent(s, s1) && MaySend(c, s, records, p, state)
    ensures MaySend(c, s1, records, p, state)
  {
  }

  /** An answered upload is the last event of its path, and its record is in step. */
  lemma UploadInStep(c: Client, m: Moment, s1: Server, m': Moment, rel: string, sent: Scan, opId: string, clock: Clock,
                     time: int)
    requires Inv(s1) && OnlyChunksSent(m.server, s1) && IsClean(rel) && Key(c.account, c.space, opId) !in m.server.ops
    requires (sent.state.File? || sent.state.Dir?) && MaySend(c, m.server, m.records, rel, sent.state)
    requires var req := Upload(c, m.records, opId, rel, sent);
             var (s', r) := Commit(s1, c.account, c.space, req, clock);
             r.Ok? && r.value.version.Some? && m'.server == s' && m'.tree == m.tree
             && m'.records == Recorded(m.records, CommitMessage(req), r.value, time)
    ensures Inv(m'.server) && m.server.files.Keys <= m'.server.files.Keys && SentFor(c, m, m', rel)
    ensures Tracks(m'.records, rel, LastOf(c, m'.server, rel)) && Matches(m'.records, rel, sent)
    ensures PathKey(c, rel) in m'.server.files
            && (sent.state.Dir? ==> IsLiveDir(m'.server.files, PathKey(c, rel)))
    ensures OwnGrowth(m.server, m'.server, OriginOf(c))
  {
    hide Inv, Commit, IsClean, Recorded, LastAt, LiveDir, OnlyDirsMade, Landed, MaySend, NotDiverted, Tracks, Ancestors;
    var req := Upload(c, m.records, opId, rel, sent);
    var r := Commit(s1, c.account, c.space, req, clock).1.value;
    MaySendAfterChunks(c, m.server, s1, m.records, rel, sent.state);
    SentNotDiverted(c, s1, m.records, opId, rel, sent);
    CommitAnswered(s1, c.account, c.space, req, clock);
    AnsweredTables(s1, m'.server, m.server, m'.server, OriginOf(c), req.manifest, r);
    CommitAnswers(s1, c.account, c.space, req, clock);
    AnswerTracks(c, s1, m'.server, m.records, opId, rel, sent, r, time);
    CommitKeepsKeys(s1, c.account, c.space, req, clock);
    CommitOwn(s1, c.account, c.space, req, clock);
  }

  /** The records of all other paths are as they were. */
  ghost predicate OthersSame(m: Moment, m': Moment, rel: string) {
    forall p | p != rel :: (p in m'.records <==> p in m.records) && (p in m.records ==> m'.records[p] == m.records[p])
  }

  /** What one visit leaves right. */
  ghost predicate VisitedOk(c: Client, m: Moment, m': Moment, scan: map<string, Scan>, todo: set<string>) {
    Inv(m'.server) && Pushing(c, m', scan, todo) && CopiesClear(c, m', scan) && m'.tree == m.tree
    && OwnGrowth(m.server, m'.server, OriginOf(c))
  }

  lemma SentVisitOk(c: Client, m: Moment, s1: Server, m': Moment, scan: map<string, Scan>, todo: set<string>,
                    rel: string, sent: Scan, opId: string, clock: Clock, time: int)
    requires Inv(m.server) && Pushing(c, m, scan, todo) && CopiesClear(c, m, scan) && ScanClosed(scan)
             && ScanSound(scan) && rel in scan && rel in todo
    requires Inv(s1) && OnlyChunksSent(m.server, s1) && Key(c.account, c.space, opId) !in m.server.ops
    requires sent.state == scan[rel].state
             && (sent.state.File? ==> sent.hash == scan[rel].hash && sent.size == scan[rel].size)
    requires var req := Upload(c, m.records, opId, rel, sent);
             var (s', r) := Commit(s1, c.account, c.space, req, clock);
             r.Ok? && r.value.version.Some? && m'.server == s' && m'.tree == m.tree
             && m'.records == Recorded(m.records, CommitMessage(req), r.value, time)
    ensures VisitedOk(c, m, m', scan, todo - {rel}) && OthersSame(m, m', rel)
  {
    hide Inv, Commit, IsClean, Recorded, LastAt, LiveDir, SentFor, CopiesClear, ScanClosed, Tracks, Loose, Forlorn,
         OwnGrowth;
    assert PathOk(c, m, scan, todo, rel);
    NotForlorn(c, m, s1, rel, sent, opId, clock);
    UploadInStep(c, m, s1, m', rel, sent, opId, clock, time);
    hide Pushing;
    SentOk(c, m, m', scan, todo, rel);
    CopiesStayClear(c, m, m', scan, rel);
    SentForOthers(c, m, m', rel);
  }

  lemma SentForOthers(c: Client, m: Moment, m': Moment, rel: string)
    requires SentFor(c, m, m', rel)
    ensures OthersSame(m, m', rel)
  {
  }

  /** An answered upload was none from a record whose file is gone. */
  lemma NotForlorn(c: Client, m: Moment, s1: Server, rel: string, sent: Scan, opId: string, clock: Clock)
    requires Inv(s1) && OnlyChunksSent(m.server, s1) && IsClean(rel) && Key(c.account, c.space, opId) !in m.server.ops
             && (sent.state.File? || sent.state.Dir?)
    requires Commit(s1, c.account, c.space, Upload(c, m.records, opId, rel, sent), clock).1.Ok?
    ensures !Forlorn(m.records, rel, LastOf(c, m.server, rel))
  {
    hide Inv, Commit, IsClean, LastAt;
    if Forlorn(m.records, rel, LastOf(c, s1, rel)) {
      ForlornRefused(c, s1, m.records, opId, rel, sent, clock);
    }
  }

  lemma QuietVisitOk(c: Client, m: Moment, m': Moment, scan: map<string, Scan>, todo: set<string>, rel: string)
    requires Inv(m.server) && Pushing(c, m, scan, todo) && CopiesClear(c, m, scan) && rel in todo && rel in scan
    requires m'.server == m.server && m'.tree == m.tree && m'.records.Keys == m.records.Keys
    requires forall p | p in m.records && p != rel :: m'.records[p] == m.records[p]
    requires Tracks(m'.records, rel, LastOf(c, m.server, rel)) && Matches(m'.records, rel, scan[rel])
    ensures VisitedOk(c, m, m', scan, todo - {rel}) && OthersSame(m, m', rel)
  {
    hide Inv, PathOk, LastAt, IsParent, Taken, IsCopyName, UsedPaths;
    forall p ensures PathOk(c, m', scan, todo - {rel}, p) {
      assert PathOk(c, m, scan, todo, p);
      if p != rel {
        SameItself(m.server, PathKey(c, p));
        assert p in m'.records.Keys <==> p in m.records.Keys;
        SamePathOk(c, m, m', scan, todo, rel, p);
      } else {
        OwnPathOk(c, m', scan, todo, rel);
      }
    }
    assert forall p :: p in m'.records.Keys <==> p in m.records.Keys;
  }

  lemma DirVisitOk(c: Client, m: Moment, m': Moment, scan: map<string, Scan>, todo: set<string>, rel: string,
                   chunkSize: nat)
    requires Inv(m.server) && Pushing(c, m, scan, todo) && CopiesClear(c, m, scan) && ScanClosed(scan)
             && ScanSound(scan) && rel in scan && rel in todo && scan[rel].state.Dir?
    requires chunkSize > 0 && Visited(c, m, m', rel, scan[rel], chunkSize)
    ensures VisitedOk(c, m, m', scan, todo - {rel}) && OthersSame(m, m', rel)
  {
    hide Inv, Commit, IsClean, Recorded, LastAt, LiveDir, CopiesClear, ScanClosed, VisitedOk, FileChunks.SendBlocks;
    if rel in m.records && m.records[rel].state.Dir? {
      assert PathOk(c, m, scan, todo, rel);
      QuietVisitOk(c, m, m', scan, todo, rel);
    } else {
      var opId, clock, time :| DirSent(c, m, m', rel, scan[rel], opId, clock, time);
      var sent := DirScan(scan[rel]);
      SentVisitOk(c, m, m.server, m', scan, todo, rel, sent, opId, clock, time);
    }
  }

  lemma FileVisitOk(c: Client, m: Moment, m': Moment, scan: map<string, Scan>, todo: set<string>, rel: string,
                    chunkSize: nat)
    requires Inv(m.server) && Pushing(c, m, scan, todo) && CopiesClear(c, m, scan) && ScanClosed(scan)
             && ScanSound(scan) && rel in scan && rel in todo && scan[rel].state.File?
    requires chunkSize > 0 && Visited(c, m, m', rel, scan[rel], chunkSize)
    ensures VisitedOk(c, m, m', scan, todo - {rel}) && OthersSame(m, m', rel)
  {
    hide Inv, Commit, IsClean, Recorded, LastAt, LiveDir, CopiesClear, ScanClosed, VisitedOk, FileSent, Pushing;
    assert PathOk(c, m, scan, todo, rel) by { AllPathsOk(c, m, scan, todo, rel); }
    if Agrees(m.records, rel, scan[rel]) {
      QuietVisitOk(c, m, m', scan, todo, rel);
    } else {
      var opId, clock, time :| FileSent(c, m, m', rel, scan[rel], chunkSize, opId, clock, time);
      FileSentOk(c, m, m', scan, todo, rel, chunkSize, opId, clock, time);
    }
  }

  lemma AllPathsOk(c: Client, m: Moment, scan: map<string, Scan>, todo: set<string>, p: string)
    requires Pushing(c, m, scan, todo)
    ensures PathOk(c, m, scan, todo, p)
  {
  }

  lemma FileSentOk(c: Client, m: Moment, m': Moment, scan: map<string, Scan>, todo: set<string>, rel: string,
                   chunkSize: nat, opId: string, clock: Clock, time: int)
    requires Inv(m.server) && Pushing(c, m, scan, todo) && CopiesClear(c, m, scan) && ScanClosed(scan)
             && ScanSound(scan) && rel in scan && rel in todo && scan[rel].state.File?
    requires chunkSize > 0 && FileSent(c, m, m', rel, scan[rel], chunkSize, opId, clock, time)
    ensures VisitedOk(c, m, m', scan, todo - {rel}) && OthersSame(m, m', rel)
  {
    hide Inv, Commit, IsClean, Recorded, LastAt, LiveDir, CopiesClear, ScanClosed, VisitedOk, PathOk,
         FileChunks.SendBlocks;
    var content := ContentAt(m.tree, rel);
    var s1 := ChunksSent(m.server, c.account, content, chunkSize, scan[rel]);
    var missing := MissingOf(m.server, c.account, scan[rel]);
    SendingKeeps(m.server, c.account, FileChunks.Blocks(content, chunkSize), missing);
    SendingOnlySends(m.server, c.account, FileChunks.Blocks(content, chunkSize), missing);
    ChunksSentIs(m.server, c.account, content, chunkSize, scan[rel]);
    FileStays(c, m, s1, m', scan, todo, rel, opId, clock, time);
    SentVisitOk(c, m, s1, m', scan, todo, rel, scan[rel], opId, clock, time);
  }

  /** An upload that is not diverted leaves the local file where it is. */
  lemma FileStays(c: Client, m: Moment, s1: Server, m': Moment, scan: map<string, Scan>, todo: set<string>, rel: string,
                  opId: string, clock: Clock, time: int)
    requires Inv(s1) && OnlyChunksSent(m.server, s1) && Pushing(c, m, scan, todo) && rel in scan
             && scan[rel].state.File? && IsClean(rel) && Key(c.account, c.space, opId) !in m.server.ops
    requires var r := Commit(s1, c.account, c.space, Upload(c, m.records, opId, rel, scan[rel]), clock).1;
             r.Ok? && r.value.version.Some? && (m'.tree, true) == FollowCopy(m.tree, rel, r.value)
    ensures m'.tree == m.tree
  {
    hide Inv, Commit, IsClean, Recorded, LastAt, LiveDir, Answered, NotDiverted, Tracks, Pushing;
    AllPathsOk(c, m, scan, todo, rel);
    var req := Upload(c, m.records, opId, rel, scan[rel]);
    var (s', r) := Commit(s1, c.account, c.space, req, clock);
    NotForlorn(c, m, s1, rel, scan[rel], opId, clock);
    MaySendAfterChunks(c, m.server, s1, m.records, rel, File);
    SentNotDiverted(c, s1, m.records, opId, rel, scan[rel]);
    CommitAnswered(s1, c.account, c.space, req, clock);
    CommitAnswers(s1, c.account, c.space, req, clock);
    AnswerTracks(c, s1, s', m.records, opId, rel, scan[rel], r.value, time);
  }

  // ---------------------------------------------------------------- all visits

  lemma VisitOk(c: Client, m: Moment, m': Moment, scan: map<string, Scan>, todo: set<string>, rel: string,
                chunkSize: nat)
    requires Inv(m.server) && Pushing(c, m, scan, todo) && CopiesClear(c, m, scan) && ScanClosed(scan)
             && ScanSound(scan) && rel in scan && rel in todo
    requires chunkSize > 0 && Visited(c, m, m', rel, scan[rel], chunkSize)
    ensures VisitedOk(c, m, m', scan, todo - {rel}) && OthersSame(m, m', rel)
  {
    hide Inv, Pushing, CopiesClear, ScanClosed, VisitedOk, Visited, IsClean;
    if scan[rel].state.Dir? {
      DirVisitOk(c, m, m', scan, todo, rel, chunkSize);
    } else {
      FileVisitOk(c, m, m', scan, todo, rel, chunkSize);
    }
  }

  lemma {:induction false} VisitsOk(c: Client, m: Moment, m': Moment, scan: map<string, Scan>, todo: set<string>,
                                    chunkSize: nat)
    requires Inv(m.server) && Pushing(c, m, scan, todo) && CopiesClear(c, m, scan) && ScanClosed(scan)
             && ScanSound(scan)
    requires chunkSize > 0 && todo <= scan.Keys && VisitsAll(c, m, m', scan, todo, chunkSize)
    ensures VisitedOk(c, m, m', scan, {})
    decreases |todo|
  {
    hide Inv, Pushing, CopiesClear, ScanClosed, Visited, ScanSound, OwnGrowth;
    if todo == {} {
      OwnNothing(m.server, OriginOf(c));
    } else {
      var rel, mid :| rel in todo && Visited(c, m, mid, rel, scan[rel], chunkSize)
                      && VisitsAll(c, mid, m', scan, todo - {rel}, chunkSize);
      VisitOk(c, m, mid, scan, todo, rel, chunkSize);
      VisitsOk(c, mid, m', scan, todo - {rel}, chunkSize);
      OwnGrowthOn(m.server, mid.server, m'.server, OriginOf(c));
    }
  }

  lemma OwnNothing(s: Server, o: Origin)
    ensures OwnGrowth(s, s, o)
  {
  }

  // ---------------------------------------------------------------- the deletions

  /** A path while the deletions of `todo` are still to be sent. */
  ghost predicate GoneOk(c: Client, m: Moment, scan: map<string, Scan>, todo: set<string>, p: string) {
    Settles(m.records, p, LastOf(c, m.server, p))
    && (p in scan ==> Matches(m.records, p, scan[p]))
    && (p in todo <==> p !in scan && p in m.records && (m.records[p].state.File? || m.records[p].state.Dir?))
  }

  ghost predicate Burying(c: Client, m: Moment, scan: map<string, Scan>, todo: set<string>) {
    forall p :: GoneOk(c, m, scan, todo, p)
  }

  /** The current version of a path that is recorded as there. */
  lemma GoneIsCurrent(c: Client, s: Server, records: Records, p: string)
    requires Inv(s) && Tracks(records, p, LastOf(c, s, p)) && p in records
             && (records[p].state.File? || records[p].state.Dir?)
    ensures HasVersion(s.files, PathKey(c, p)) && IsClean(p)
            && s.files[PathKey(c, p)].current == LastOf(c, s, p)
            && !s.files[PathKey(c, p)].current.value.state.Deleted?
            && records[p].versionId == s.files[PathKey(c, p)].current.value.versionId
            && records[p].fileId == s.files[PathKey(c, p)].fileId
  {
    LiveAtLast(c, s, p);
    CopyIsClean(s, PathKey(c, p));
    hide Inv, LastAt, IsClean;
  }

  lemma BurialTracks(c: Client, s: Server, s': Server, records: Records, opId: string, rel: string, r: CommitResponse,
                     time: int)
    requires Buried(s, s', PathKey(c, rel), r) && rel in records
             && records[rel].fileId == s.files[PathKey(c, rel)].fileId
    ensures var records' := Recorded(records, DeleteMessage(Removal(c, records, opId, rel)), r, time);
            records'.Keys == records.Keys && (forall p | p in records && p != rel :: records'[p] == records[p])
            && Tracks(records', rel, LastOf(c, s', rel)) && records'[rel].state.Deleted?
  {
  }

  lemma RemovalOk(c: Client, m: Moment, m': Moment, scan: map<string, Scan>, todo: set<string>, rel: string,
                  opId: string, clock: Clock, time: int)
    requires Inv(m.server) && Burying(c, m, scan, todo) && rel in todo && Removed(c, m, m', rel, opId, clock, time)
    ensures Inv(m'.server) && Burying(c, m', scan, todo - {rel}) && m'.tree == m.tree
            && OwnGrowth(m.server, m'.server, OriginOf(c))
  {
    hide Inv, Delete, LastAt, IsClean, Recorded, LiveDir;
    assert GoneOk(c, m, scan, todo, rel);
    var req := Removal(c, m.records, opId, rel);
    var r := Delete(m.server, c.account, c.space, req, clock).1.value;
    GoneIsCurrent(c, m.server, m.records, rel);
    DeleteBuries(m.server, c.account, c.space, req, clock);
    BurialTracks(c, m.server, m'.server, m.records, opId, rel, r, time);
    StoreTrash.DeleteInv(m.server, c.account, c.space, req, clock);
    DeleteOwn(m.server, c.account, c.space, req, clock);
    forall p ensures GoneOk(c, m', scan, todo - {rel}, p) {
      assert GoneOk(c, m, scan, todo, p);
      assert p in m'.records.Keys <==> p in m.records.Keys;
      assert p != rel ==> SameKey(m.server, m'.server, PathKey(c, p));
    }
  }

  lemma {:induction false} RemovalsOk(c: Client, m: Moment, m': Moment, scan: map<string, Scan>, todo: set<string>)
    requires Inv(m.server) && Burying(c, m, scan, todo) && RemovesAll(c, m, m', todo)
    ensures Inv(m'.server) && Burying(c, m', scan, {}) && m'.tree == m.tree
            && OwnGrowth(m.server, m'.server, OriginOf(c))
    decreases |todo|
  {
    hide Inv, Burying, Removed, OwnGrowth;
    if todo == {} {
      OwnNothing(m.server, OriginOf(c));
    } else {
      var rel, mid, opId, clock, time :| rel in todo && Removed(c, m, mid, rel, opId, clock, time)
                                         && RemovesAll(c, mid, m', todo - {rel});
      RemovalOk(c, m, mid, scan, todo, rel, opId, clock, time);
      RemovalsOk(c, mid, m', scan, todo - {rel});
      OwnGrowthOn(m.server, mid.server, m'.server, OriginOf(c));
    }
  }

  // ---------------------------------------------------------------- a whole push

  /** Nothing a push uploads has to give way: no file of the client stands where the server has a directory the client
      was never told of, or goes by a name under which the server would put a directory for a parent whose own place
      is taken by a file or a tombstone. */
  ghost predicate Unhampered(c: Client, m: Moment) {
    (forall p | Scanned(m.tree, p) && IsFile(m.tree, p) :: !Loose(m.records, p, LastOf(c, m.server, p)))
    && forall q, d, p | Scanned(m.tree, q) && d in Above(q) && Taken(m.server.files, PathKey(c, d))
                        && IsCopyName(p, d, c.device) ::
         p in UsedPaths(m.server.files) || !(Scanned(m.tree, p) && IsFile(m.tree, p))
  }

  lemma ScanFinds(t: Tree, chunkSize: nat, dirTimes: map<string, int>, p: string)
    requires chunkSize > 0
    ensures var scan := ScanOf(t, chunkSize, dirTimes);
            (p in scan <==> Scanned(t, p))
            && (p in scan ==> (scan[p].state.Dir? <==> IsDir(t, p)) && (scan[p].state.File? <==> IsFile(t, p)))
            && (p in scan && IsFile(t, p) ==> scan[p].hash == HashBytes(t[p].data) && scan[p].size == |t[p].data|)
  {
  }

  lemma ScanIsClosed(t: Tree, chunkSize: nat, dirTimes: map<string, int>)
    requires chunkSize > 0 && WellFormed(t)
    ensures ScanClosed(ScanOf(t, chunkSize, dirTimes))
  {
  }

  lemma StartsPushing(c: Client, m: Moment, chunkSize: nat, dirTimes: map<string, int>)
    requires chunkSize > 0 && InStep(c, m.server, m.records) && Unhampered(c, m)
    ensures var scan := ScanOf(m.tree, chunkSize, dirTimes);
            Pushing(c, m, scan, scan.Keys) && CopiesClear(c, m, scan)
  {
    hide ScanOf, LastAt, IsCopyName, UsedPaths, Taken, Scanned, Above;
    var scan := ScanOf(m.tree, chunkSize, dirTimes);
    forall p ensures PathOk(c, m, scan, scan.Keys, p) {
      ScanFinds(m.tree, chunkSize, dirTimes, p);
      assert Settles(m.records, p, LastOf(c, m.server, p));
    }
    forall d, p | IsParent(scan, d) && Taken(m.server.files, PathKey(c, d)) && IsCopyName(p, d, c.device)
      ensures p in UsedPaths(m.server.files) || !(p in scan && scan[p].state.File?)
    {
      var q :| q in scan && d in Above(q);
      ScanFinds(m.tree, chunkSize, dirTimes, q);
      ScanFinds(m.tree, chunkSize, dirTimes, p);
    }
  }

  lemma StartsBurying(c: Client, m: Moment, scan: map<string, Scan>)
    requires Pushing(c, m, scan, {})
    ensures Burying(c, m, scan, GonePaths(m.records, scan))
  {
    hide LastAt;
    forall p ensures GoneOk(c, m, scan, GonePaths(m.records, scan), p) { assert PathOk(c, m, scan, {}, p); }
  }

  /** A push that nothing hampers leaves every record in step and matching the scan, and the local files alone. */
  lemma PushInStep(c: Client, m: Moment, m': Moment, chunkSize: nat)
    requires chunkSize > 0 && Inv(m.server) && WellFormed(m.tree) && CleanTree(m.tree)
    requires InStep(c, m.server, m.records) && Unhampered(c, m) && Pushed(c, m, m', chunkSize)
    ensures Inv(m'.server) && m'.tree == m.tree && OwnGrowth(m.server, m'.server, OriginOf(c))
    ensures Burying(c, m', ScanOf(m.tree, chunkSize, map[]), {})
  {
    hide Inv, WellFormed, CleanTree, InStep, Unhampered, VisitsAll, RemovesAll, ScanOf, Pushing, CopiesClear, Burying,
         ScanClosed, ScanSound, OwnGrowth;
    var dirTimes: map<string, int>, mid :|
        var scan := ScanOf(m.tree, chunkSize, dirTimes);
        VisitsAll(c, m, mid, scan, scan.Keys, chunkSize) && RemovesAll(c, mid, m', GonePaths(mid.records, scan));
    var scan := ScanOf(m.tree, chunkSize, dirTimes);
    ScanIsClosed(m.tree, chunkSize, dirTimes);
    ScanIsSound(m.tree, chunkSize, dirTimes);
    StartsPushing(c, m, chunkSize, dirTimes);
    VisitsOk(c, m, mid, scan, scan.Keys, chunkSize);
    StartsBurying(c, mid, scan);
    RemovalsOk(c, mid, m', scan, GonePaths(mid.records, scan));
    OwnGrowthOn(m.server, mid.server, m'.server, OriginOf(c));
    SameScan(c, m', m.tree, chunkSize, dirTimes);
  }

  lemma SameScan(c: Client, m: Moment, t: Tree, chunkSize: nat, dirTimes: map<string, int>)
    requires chunkSize > 0 && Burying(c, m, ScanOf(t, chunkSize, dirTimes), {})
    ensures Burying(c, m, ScanOf(t, chunkSize, map[]), {})
  {
    hide ScanOf, LastAt;
    forall p ensures GoneOk(c, m, ScanOf(t, chunkSize, map[]), {}, p) {
      assert GoneOk(c, m, ScanOf(t, chunkSize, dirTimes), {}, p);
      ScanFinds(t, chunkSize, dirTimes, p);
      ScanFinds(t, chunkSize, map[], p);
    }
  }

  /** Whatever a record says, an answered upload of a file goes to its own path if and only if there is no version, or
      the record names just that version. */
  lemma UploadKeepsItsPath(c: Client, s: Server, req: CommitRequest, clock: Clock)
    requires Inv(s) && IsClean(req.manifest.path) && req.manifest.state.File?
             && Key(c.account, c.space, req.opId) !in s.ops
    requires Commit(s, c.account, c.space, req, clock).1.Ok?
    ensures var r := Commit(s, c.account, c.space, req, clock).1.value;
            r.version.Some?
            && (r.version.value.path == req.manifest.path
                <==> NotDiverted(s, PathKey(c, req.manifest.path), req.manifest))
  {
    hide Inv, Commit, IsClean, LastAt, LiveDir, OnlyDirsMade, NotDiverted, Ancestors;
    CommitAnswers(s, c.account, c.space, req, clock);
    if NotDiverted(s, PathKey(c, req.manifest.path), req.manifest) {
      CommitAnswered(s, c.account, c.space, req, clock);
    } else {
      CommitPutBeside(s, c.account, c.space, req, clock);
      BesideIsElsewhere(c, s, req, clock);
    }
  }

  lemma BesideIsElsewhere(c: Client, s: Server, req: CommitRequest, clock: Clock)
    requires Inv(Commit(s, c.account, c.space, req, clock).0) && Commit(s, c.account, c.space, req, clock).1.Ok?
    requires var (s', r) := Commit(s, c.account, c.space, req, clock);
             r.value.version.Some?
             && PutBeside(s, s', RequestOrigin(c.account, c.space, req.device, req.root), req.manifest, r.value)
    ensures Commit(s, c.account, c.space, req, clock).1.value.version.value.path != req.manifest.path
  {
    hide Inv, Commit, OnlyDirsMade, IsCopyName, UsedPaths, SameKey, LastAt;
    var (s', r) := Commit(s, c.account, c.space, req, clock);
    CopyIsClean(s', PathKey(c, r.value.conflictPath));
  }

  /** From records in step that is: if and only if no directory is there that the client was never told of. */
  lemma InStepKeepsItsPath(c: Client, s: Server, records: Records, opId: string, rel: string, entry: Scan)
    requires Inv(s) && entry.state.File? && Settles(records, rel, LastOf(c, s, rel))
             && !Forlorn(records, rel, LastOf(c, s, rel))
    ensures NotDiverted(s, PathKey(c, rel), Upload(c, records, opId, rel, entry).manifest)
       <==> !Loose(records, rel, LastOf(c, s, rel))
  {
    hide Inv, LastAt, LiveDir, NotDiverted;
    if Loose(records, rel, LastOf(c, s, rel)) {
      LiveAtLast(c, s, rel);
      CurrentIsLast(c, s, rel);
      LooseNotNamed(c, s, records, opId, rel, entry);
    } else {
      SentNotDiverted(c, s, records, opId, rel, entry);
    }
  }

  lemma LooseNotNamed(c: Client, s: Server, records: Records, opId: string, rel: string, entry: Scan)
    requires rel !in records && entry.state.File? && HasVersion(s.files, PathKey(c, rel))
             && s.files[PathKey(c, rel)].current.value.versionId.Issued?
    ensures !NotDiverted(s, PathKey(c, rel), Upload(c, records, opId, rel, entry).manifest)
  {
  }

  // ---------------------------------------------------------------- what the client then holds

  /** The files outside the state directory are the live files, and the directories the live directories, but for those
      the client was never told of; contents are the same, or two byte strings with one digest are at hand. */
  ghost predicate HoldsLive(c: Client, s: Server, records: Records, t: Tree) {
    forall p :: HoldsLiveAt(c, s, records, t, p)
  }

  ghost predicate HoldsLiveAt(c: Client, s: Server, records: Records, t: Tree, p: string) {
    var live := LiveContents(s, c.account, c.space);
    (p in live <==> Scanned(t, p) && IsFile(t, p))
    && (p in live ==> t[p].data == live[p] || Collision(t[p].data, live[p]))
    && (Scanned(t, p) && IsDir(t, p) ==> IsLiveDir(s.files, PathKey(c, p)))
    && (IsLiveDir(s.files, PathKey(c, p)) ==> (Scanned(t, p) && IsDir(t, p)) || !Known(records, p).state.Dir?)
  }

  /** What the log says of a path, against the entries. */
  lemma LastIsLive(c: Client, s: Server, p: string)
    requires Inv(s)
    ensures var live, last := LiveContents(s, c.account, c.space), LastOf(c, s, p);
            (p in live <==> last.Some? && last.value.state.File?)
            && (p in live ==> live[p] == Assemble(s.chunks, last.value.chunks)
                              && HashBytes(live[p]) == last.value.hash)
            && (IsLiveDir(s.files, PathKey(c, p)) <==> last.Some? && last.value.state.Dir?)
  {
    hide UniqueVersionIds, DistinctFileIds, WindowOk, ChunksOk, OpsOk, LastAt, Assemble, LogOk, HistoriesOk;
    var key := PathKey(c, p);
    EventWindow.LogTellsFiles(s, key);
    if HasVersion(s.files, key) {
      assert EntryOk(s.versions, key, s.files[key], s.nextId);
      EntryIsAvailable(s, key);
    }
  }

  lemma EntryIsAvailable(s: Server, key: Key)
    requires FilesOk(s.files, s.versions, s.nextId) && ContentOk(s.versions, s.chunks, s.grants)
             && HasVersion(s.files, key)
    ensures var v := s.files[key].current.value;
            v.state.File? ==> HashBytes(Assemble(s.chunks, v.chunks)) == v.hash
  {
  }

  lemma BuriedHoldsLive(c: Client, m: Moment, chunkSize: nat)
    requires chunkSize > 0 && Inv(m.server) && Burying(c, m, ScanOf(m.tree, chunkSize, map[]), {})
    ensures HoldsLive(c, m.server, m.records, m.tree)
  {
    hide Inv, ScanOf, LastAt, LiveContents, LiveDir, Scanned;
    forall p ensures HoldsLiveAt(c, m.server, m.records, m.tree, p) {
      assert GoneOk(c, m, ScanOf(m.tree, chunkSize, map[]), {}, p);
      ScanFinds(m.tree, chunkSize, map[], p);
      LastIsLive(c, m.server, p);
    }
  }

  lemma {:induction false} RemovingSpares(t: Tree, order: seq<string>, p: string)
    requires p !in order
    ensures var t' := DirectoryCleanup.RemoveEach(t, order).0;
            (p in t' <==> p in t) && (p in t ==> t'[p] == t[p])
    decreases |order|
  {
    if order != [] { RemovingSpares(Remove(t, order[0]).0, order[1..], p); }
  }

  lemma {:induction false} RemovingOnlyRemoves(t: Tree, order: seq<string>, p: string)
    ensures p !in t ==> p !in DirectoryCleanup.RemoveEach(t, order).0
    decreases |order|
  {
    if order != [] { RemovingOnlyRemoves(Remove(t, order[0]).0, order[1..], p); }
  }

  /** The cleanup at the end takes nothing that was scanned. */
  lemma CleanupSparesScanned(c: Client, m: Moment, t: Tree, order: seq<string>, chunkSize: nat)
    requires chunkSize > 0 && Burying(c, m, ScanOf(m.tree, chunkSize, map[]), {})
    requires DirectoryCleanup.SetOf(order) == DeletedDirs(m.records)
             && t == DirectoryCleanup.RemoveEach(m.tree, order).0
    requires HoldsLive(c, m.server, m.records, m.tree)
    ensures HoldsLive(c, m.server, m.records, t)
  {
    hide ScanOf, LastAt, LiveContents, LiveDir, DirectoryCleanup.RemoveEach, Within;
    forall p ensures HoldsLiveAt(c, m.server, m.records, t, p) {
      assert HoldsLiveAt(c, m.server, m.records, m.tree, p);
      assert GoneOk(c, m, ScanOf(m.tree, chunkSize, map[]), {}, p);
      ScanFinds(m.tree, chunkSize, map[], p);
      RemovingOnlyRemoves(m.tree, order, p);
      if Scanned(m.tree, p) {
        assert p in order ==> p in DirectoryCleanup.SetOf(order);
        RemovingSpares(m.tree, order, p);
      }
    }
  }

  // ---------------------------------------------------------------- pulls

  lemma {:induction false} PullWellFormed(c: Copy, device: string, root: string, events: seq<Event>, envs: seq<Env>)
    requires WellFormed(c.tree)
    ensures WellFormed(PullEvents(c, device, root, events, envs).0.tree)
    decreases |events|
  {
    hide ApplyToFiles, WellFormed, CleanRel;
    if events == [] || envs == [] {
    } else if OwnEvent(device, root, events[0]) {
      PullWellFormed(Advance(c, events[0]), device, root, events[1..], envs[1..]);
    } else {
      var v := events[0].version;
      if CleanRel(v.path).Ok? {
        var rel := CleanRel(v.path).value;
        ApplyWellFormed(c.tree, Known(c.records, rel), rel, device, v, envs[0]);
      }
      var (c1, done) := ApplyVersion(c, device, v, envs[0]);
      if done { PullWellFormed(Advance(c1, events[0]), device, root, events[1..], envs[1..]); }
    }
  }

  lemma {:induction false} RemovingWellFormed(t: Tree, order: seq<string>)
    requires WellFormed(t)
    ensures WellFormed(DirectoryCleanup.RemoveEach(t, order).0)
    decreases |order|
  {
    hide WellFormed, Remove;
    if order != [] {
      RemoveWellFormed(t, order[0]);
      RemovingWellFormed(Remove(t, order[0]).0, order[1..]);
    }
  }

  lemma PullKeepsTree(c: Client, answer: seq<Event>, before: Copy, envs: seq<Env>, pulled: Copy, done: bool)
    requires WellFormed(before.tree) && CleanTree(before.tree)
    requires PullEnds(before, c.device, c.root, answer, envs, pulled, done)
    ensures WellFormed(pulled.tree) && CleanTree(pulled.tree)
  {
    hide PullEvents, WellFormed, CleanTree, DirectoryCleanup.RemoveEach, DirectoryCleanup.LongestFirst, SortBySeq;
    PullEndsClean(before, c.device, c.root, answer, envs, pulled, done);
    PullWellFormed(before, c.device, c.root, SortBySeq(answer), envs);
    var (c1, applied) := PullEvents(before, c.device, c.root, SortBySeq(answer), envs);
    if applied {
      var order :| DirectoryCleanup.LongestFirst(order) && DirectoryCleanup.SetOf(order) == DeletedDirs(c1.records)
                   && (pulled.tree, done) == DirectoryCleanup.RemoveEach(c1.tree, order);
      RemovingWellFormed(c1.tree, order);
    }
  }

  lemma InStepIsSettled(c: Client, s: Server, cursor: nat, records: Records)
    requires Attuned(c, s.log, cursor, records) && forall p :: !Outstanding(c, s.log, cursor, p)
    ensures InStep(c, s, records)
  {
    hide LastAt, Coming, Settles;
    forall p ensures Settles(records, p, LastOf(c, s, p)) {
      assert Tuned(c, s.log, cursor, records, p) && !Outstanding(c, s.log, cursor, p);
    }
  }

  /** A pull, wherever it stops, leaves the records attuned; if it gets through, they are in step with the server that
      answered. */
  lemma PullEndsTuned(c: Client, s: Server, before: Copy, envs: seq<Env>, pulled: Copy, done: bool)
    requires Inv(s) && NoneMissed(c, s, before.cursor) && Attuned(c, s.log, before.cursor, before.records)
    requires PullEnds(before, c.device, c.root, EventsAfter(s, c.account, c.space, before.cursor), envs, pulled, done)
    ensures Attuned(c, s.log, pulled.cursor, pulled.records)
    ensures done ==> (forall p :: !Outstanding(c, s.log, pulled.cursor, p)) && InStep(c, s, pulled.records)
  {
    hide Inv, Attuned, PullEvents, EventsAfter, SortBySeq, NoneMissed, Outstanding, InStep, DirectoryCleanup.RemoveEach,
         DirectoryCleanup.LongestFirst, RecordsInStep.Answers;
    ServerLogSane(s);
    ServerAnswers(c, s, before.cursor);
    PullTuned(c, s.log, EventsAfter(s, c.account, c.space, before.cursor), before, envs);
    if done { InStepIsSettled(c, s, pulled.cursor, pulled.records); }
  }

  /** The second pull of an undisturbed `syncOnce` finds own events only: of the files none but tombstoned directories
      may go, and no record changes. */
  lemma OwnPull(c: Client, s: Server, held: Copy, envs: seq<Env>, after: Copy, done: bool) returns (order: seq<string>)
    requires Inv(s) && forall p :: !Outstanding(c, s.log, held.cursor, p)
    requires PullEnds(held, c.device, c.root, EventsAfter(s, c.account, c.space, held.cursor), envs, after, done)
    ensures after.records == held.records && DirectoryCleanup.SetOf(order) == DeletedDirs(held.records)
    ensures after.tree == held.tree || after.tree == DirectoryCleanup.RemoveEach(held.tree, order).0
  {
    hide Inv, PullEvents, EventsAfter, SortBySeq, DirectoryCleanup.RemoveEach, DirectoryCleanup.LongestFirst;
    var answer := EventsAfter(s, c.account, c.space, held.cursor);
    AnswerIsOwn(c, s, held.cursor);
    OwnEventsPass(held, c.device, c.root, SortBySeq(answer), envs);
    var (h, applied) := PullEvents(held, c.device, c.root, SortBySeq(answer), envs);
    if applied {
      order :| DirectoryCleanup.LongestFirst(order) && DirectoryCleanup.SetOf(order) == DeletedDirs(h.records)
               && (after.tree, done) == DirectoryCleanup.RemoveEach(h.tree, order);
    } else {
      order := AnyOrder(DeletedDirs(held.records));
    }
  }

  lemma AnswerIsOwn(c: Client, s: Server, cursor: nat)
    requires Inv(s) && forall p :: !Outstanding(c, s.log, cursor, p)
    ensures forall e | e in SortBySeq(EventsAfter(s, c.account, c.space, cursor)) :: OwnEvent(c.device, c.root, e)
  {
    hide HistoriesOk, UniqueVersionIds, FilesOk, LogOk, ContentOk, OpsOk, ReplayOk, ChunksOk, DistinctFileIds,
         FilterEvents, SortBySeq;
    var answer := EventsAfter(s, c.account, c.space, cursor);
    FilterMembers(s.events, c.account, c.space, cursor);
    SortedAscending(answer);
    forall e | e in SortBySeq(answer) ensures OwnEvent(c.device, c.root, e) {
      assert e in multiset(SortBySeq(answer));
      assert e in answer;
      KeptInLog(s, e);
      assert !Outstanding(c, s.log, cursor, e.version.path);
      assert !Coming(c, s.log, cursor, e, e.version.path);
    }
  }

  lemma {:induction false} OwnEventsPass(h: Copy, device: string, root: string, events: seq<Event>, envs: seq<Env>)
    requires forall e | e in events :: OwnEvent(device, root, e)
    ensures var h' := PullEvents(h, device, root, events, envs).0; h' == h.(cursor := h'.cursor)
    decreases |events|
  {
    hide ApplyVersion;
    if events != [] && envs != [] {
      assert events[0] in events && forall e | e in events[1..] :: e in events;
      OwnEventsPass(Advance(h, events[0]), device, root, events[1..], envs[1..]);
    }
  }

  lemma AnyOrder(dirs: set<string>) returns (order: seq<string>)
    ensures DirectoryCleanup.SetOf(order) == dirs
  {
    if dirs == {} {
      order := [];
    } else {
      var d :| d in dirs;
      var rest := AnyOrder(dirs - {d});
      order := [d] + rest;
      assert DirectoryCleanup.SetOf(order) == {d} + DirectoryCleanup.SetOf(rest);
    }
  }

  // ---------------------------------------------------------------- the theorem

  /** One `syncOnce`: the server that answered its first pull, what the client held before and after that pull,
      whether it succeeded; if so, what the push left wherever it stopped, and whether it got through; if so, the
      server that answered the second pull, what the client held at the end, and whether that pull succeeded. */
  datatype Sync = Sync(server: Server, before: Copy, first: seq<Env>, pulled: Copy, passed: bool, pushed: Moment,
                       through: bool, answering: Server, second: seq<Env>, after: Copy, done: bool)

  function AfterPull(y: Sync): Moment { Moment(y.server, y.pulled.records, y.pulled.tree) }

  /** What the client holds once the push stopped. */
  function Held(y: Sync): Copy { Copy(y.pushed.records, y.pulled.cursor, y.pushed.tree) }

  /** Pulls and push may fail or be cut short anywhere, and others work on the space all the time.  What the server
      answers to a commit or deletion is recorded, and no event the client still needs has left the window. */
  ghost predicate IsSync(c: Client, y: Sync, chunkSize: nat)
    requires chunkSize > 0
  {
    Inv(y.server) && NoneMissed(c, y.server, y.before.cursor) && WellFormed(y.before.tree) && CleanTree(y.before.tree)
    && PullEnds(y.before, c.device, c.root, EventsAfter(y.server, c.account, c.space, y.before.cursor), y.first,
                y.pulled, y.passed)
    && if !y.passed then y.pushed == AfterPull(y) && y.answering == y.server && y.after == y.pulled
       else
         PushedAmid(c, y.pulled.cursor, AfterPull(y), y.pushed, chunkSize)
         && Inv(y.answering) && OnlyOthers(c, y.pushed.server, y.answering)
         && if !y.through then y.after == Held(y)
            else NoneMissed(c, y.answering, y.pulled.cursor)
                 && PullEnds(Held(y), c.device, c.root, EventsAfter(y.answering, c.account, c.space, y.pulled.cursor),
                             y.second, y.after, y.done)
  }

  /** A sync whose push got through, with nobody else at work between its steps. */
  ghost predicate Undisturbed(c: Client, y: Sync, chunkSize: nat)
    requires chunkSize > 0
  {
    y.passed && y.through && y.answering == y.pushed.server && Pushed(c, AfterPull(y), y.pushed, chunkSize)
  }

  /** Whatever happens during one `syncOnce`: the records are attuned again; and if it got through undisturbed, with
      nothing to hamper it, the client then holds the server's live files. */
  lemma OneSync(c: Client, s: Server, y: Sync, chunkSize: nat)
    requires chunkSize > 0 && TrimSpace(c.root) == c.root
    requires Attuned(c, s.log, y.before.cursor, y.before.records) && OnlyOthers(c, s, y.server)
    requires IsSync(c, y, chunkSize)
    ensures Attuned(c, y.answering.log, y.after.cursor, y.after.records)
    ensures Undisturbed(c, y, chunkSize) && Unhampered(c, AfterPull(y)) ==>
              HoldsLive(c, y.pushed.server, y.after.records, y.after.tree)
  {
    hide Inv, InStep, Attuned, OnlyOthers, Unhampered, PullEnds, Pushed, PushedAmid, HoldsLive, WellFormed, CleanTree,
         EventsAfter, NoneMissed, Outstanding;
    OthersAttuned(c, s, y.server, y.before.cursor, y.before.records);
    PullEndsTuned(c, y.server, y.before, y.first, y.pulled, y.passed);
    if y.passed {
      PullKeepsTree(c, EventsAfter(y.server, c.account, c.space, y.before.cursor), y.before, y.first, y.pulled, true);
      PushAttuned(c, y.pulled.cursor, AfterPull(y), y.pushed, chunkSize);
      OthersAttuned(c, y.pushed.server, y.answering, y.pulled.cursor, y.pushed.records);
      if y.through {
        PullEndsTuned(c, y.answering, Held(y), y.second, y.after, y.done);
        if Undisturbed(c, y, chunkSize) && Unhampered(c, AfterPull(y)) { UndisturbedHolds(c, y, chunkSize); }
      }
    }
  }

  lemma UndisturbedHolds(c: Client, y: Sync, chunkSize: nat)
    requires chunkSize > 0 && TrimSpace(c.root) == c.root && IsSync(c, y, chunkSize)
    requires Undisturbed(c, y, chunkSize) && Unhampered(c, AfterPull(y))
    requires WellFormed(y.pulled.tree) && CleanTree(y.pulled.tree) && InStep(c, y.server, y.pulled.records)
             && forall p :: !Outstanding(c, y.server.log, y.pulled.cursor, p)
    ensures HoldsLive(c, y.pushed.server, y.after.records, y.after.tree)
  {
    hide Inv, InStep, Unhampered, PullEnds, Pushed, PushedAmid, HoldsLive, WellFormed, CleanTree, EventsAfter,
         NoneMissed, Outstanding, OwnGrowth, Burying, ScanOf;
    PushInStep(c, AfterPull(y), y.pushed, chunkSize);
    OwnGrowthQuiet(c, y.pulled.cursor, y.server, y.pushed.server);
    var order := OwnPull(c, y.pushed.server, Held(y), y.second, y.after, y.done);
    BuriedHoldsLive(c, y.pushed, chunkSize);
    if y.after.tree != y.pushed.tree { CleanupSparesScanned(c, y.pushed, y.after.tree, order, chunkSize); }
  }

  function ServerBefore(syncs: seq<Sync>, i: nat): Server
    requires i <= |syncs|
  {
    if i == 0 then EMPTY else syncs[i - 1].answering
  }

  /** What the client remembers of the syncs before: its records and its cursor. */
  function HeldBefore(syncs: seq<Sync>, i: nat): Copy
    requires i <= |syncs|
  {
    if i == 0 then NEW_COPY else syncs[i - 1].after
  }

  ghost predicate Resumes(c: Client, s: Server, held: Copy, y: Sync, chunkSize: nat)
    requires chunkSize > 0
  {
    IsSync(c, y, chunkSize) && OnlyOthers(c, s, y.server)
    && y.before.records == held.records && y.before.cursor == held.cursor
  }

  /** A new client synchronizes again and again.  In between the user edits its files and the others work on the
      space. */
  ghost predicate SyncSequence(c: Client, syncs: seq<Sync>, chunkSize: nat)
    requires chunkSize > 0
  {
    forall i | 0 <= i < |syncs| :: Resumes(c, ServerBefore(syncs, i), HeldBefore(syncs, i), syncs[i], chunkSize)
  }

  lemma NewClientAttuned(c: Client)
    ensures Attuned(c, EMPTY.log, NEW_COPY.cursor, NEW_COPY.records)
  {
  }

  lemma {:induction false} SyncsAttuned(c: Client, syncs: seq<Sync>, chunkSize: nat, i: nat)
    requires chunkSize > 0 && TrimSpace(c.root) == c.root && SyncSequence(c, syncs, chunkSize) && i < |syncs|
    ensures var y := syncs[i];
            Attuned(c, y.answering.log, y.after.cursor, y.after.records)
            && (Undisturbed(c, y, chunkSize) && Unhampered(c, AfterPull(y)) ==>
                  HoldsLive(c, y.pushed.server, y.after.records, y.after.tree))
  {
    hide IsSync, OnlyOthers, Attuned, Unhampered, HoldsLive, Undisturbed;
    NewClientAttuned(c);
    if i > 0 { SyncsAttuned(c, syncs, chunkSize, i - 1); }
    assert Resumes(c, ServerBefore(syncs, i), HeldBefore(syncs, i), syncs[i], chunkSize);
    OneSync(c, ServerBefore(syncs, i), syncs[i], chunkSize);
  }

  /** However often a client synchronizes, whatever it and the others change in between and meanwhile, and wherever
      pulls and pushes fail or are cut short: after each `syncOnce` that gets through undisturbed, with nothing to
      hamper it, the client's files are the server's live files. */
  lemma ActiveClientConverges(c: Client, syncs: seq<Sync>, chunkSize: nat)
    requires chunkSize > 0 && TrimSpace(c.root) == c.root && SyncSequence(c, syncs, chunkSize)
    ensures forall i | 0 <= i < |syncs| && Undisturbed(c, syncs[i], chunkSize) && Unhampered(c, AfterPull(syncs[i])) ::
              HoldsLive(c, syncs[i].pushed.server, syncs[i].after.records, syncs[i].after.tree)
  {
    hide IsSync, SyncSequence, Unhampered, HoldsLive, Undisturbed, Attuned;
    forall i | 0 <= i < |syncs| && Undisturbed(c, syncs[i], chunkSize) && Unhampered(c, AfterPull(syncs[i]))
      ensures HoldsLive(c, syncs[i].pushed.server, syncs[i].after.records, syncs[i].after.tree)
    {
      SyncsAttuned(c, syncs, chunkSize, i);
    }
  }
}
