/** A push while other clients are at work, and wherever it stops (internal/client/sync.go). */
module InterleavedPush {
  import opened Model
  import opened Paths
  import opened Text
  import opened LocalFiles
  import opened StoreSpec
  import opened StoreInvariant
  import opened StoreGrowth
  import opened StoreCommit
  import StoreTrash
  import opened ClientEngine
  import opened SyncProtocol
  import opened EngineRuns
  import opened PushStores
  import opened PushEffects
  import opened RecordsInStep

  // ---------------------------------------------------------------- what a push does between others' work

  /** Others commit to the space, chunks come in, trash is pruned, though nothing the client has yet to pass. */
  ghost predicate Meanwhile(c: Client, cursor: nat, m: Moment, m': Moment) {
    m' == m.(server := m'.server) && Inv(m'.server) && Grows(m.server, m'.server)
    && OnlyOthers(c, m.server, m'.server) && PrunesPassed(c, m'.server, cursor)
  }

  /** What is sent of a scanned entry: a directory without content. */
  function ToSend(entry: Scan): Scan {
    if entry.state.Dir? then DirScan(entry) else entry
  }

  /** A commit was handled, answered and recorded; a file followed its conflict copy. */
  ghost predicate AnsweredUpload(c: Client, m: Moment, m': Moment, rel: string, sent: Scan, opId: string, clock: Clock,
                                 time: int) {
    var req := Upload(c, m.records, opId, rel, sent);
    var (s', r) := Commit(m.server, c.account, c.space, req, clock);
    Unused(c, m, opId) && r.Ok? && m'.server == s'
    && m'.records == Recorded(m.records, CommitMessage(req), r.value, time)
    && (m'.tree, true) == (if sent.state.Dir? then (m.tree, true) else FollowCopy(m.tree, rel, r.value))
  }

  /** One round of the first loop. */
  ghost predicate VisitAmid(c: Client, cursor: nat, m: Moment, m': Moment, rel: string, entry: Scan) {
    if Sends(m.records, rel, entry) then
      exists m1, opId, clock, time ::
        Meanwhile(c, cursor, m, m1) && AnsweredUpload(c, m1, m', rel, ToSend(entry), opId, clock, time)
    else m' == m || exists modTime, time :: m' == m.(records := Touched(m.records, rel, modTime, time))
  }

  ghost predicate VisitsAmid(c: Client, cursor: nat, m: Moment, m': Moment, scan: map<string, Scan>, todo: set<string>)
    requires todo <= scan.Keys
    decreases |todo|
  {
    if todo == {} then m' == m
    else exists rel, mid | rel in todo ::
      VisitAmid(c, cursor, m, mid, rel, scan[rel]) && VisitsAmid(c, cursor, mid, m', scan, todo - {rel})
  }

  ghost predicate RemovesAmid(c: Client, cursor: nat, m: Moment, m': Moment, todo: set<string>)
    decreases |todo|
  {
    if todo == {} then m' == m
    else exists rel, m1, mid, opId, clock, time | rel in todo ::
      Meanwhile(c, cursor, m, m1) && Removed(c, m1, mid, rel, opId, clock, time)
      && RemovesAmid(c, cursor, mid, m', todo - {rel})
  }

  /** A commit was refused. */
  ghost predicate Refused(c: Client, m: Moment, m': Moment) {
    exists opId, rel, sent, clock ::
      var (s', r) := Commit(m.server, c.account, c.space, Upload(c, m.records, opId, rel, sent), clock);
      r.Err? && m' == m.(server := s')
  }

  /** A push that stopped after some of its visits, or all of them and some of its deletions: it was cancelled, a
      chunk or a request did not get through, or one was refused.  What the server answered was received and
      recorded. */
  ghost predicate PushedAmid(c: Client, cursor: nat, m: Moment, m': Moment, chunkSize: nat)
    requires chunkSize > 0
  {
    exists dirTimes: map<string, int>, visited: set<string>, mid, gone: set<string>, end, last ::
      var scan := ScanOf(m.tree, chunkSize, dirTimes);
      visited <= scan.Keys && VisitsAmid(c, cursor, m, mid, scan, visited)
      && gone <= GonePaths(mid.records, scan) && RemovesAmid(c, cursor, mid, end, gone)
      && Meanwhile(c, cursor, end, last) && (m' == last || Refused(c, last, m'))
  }

  // ---------------------------------------------------------------- the records stay attuned

  /** Records that run ahead are of paths that were visited. */
  ghost predicate AheadOnly(c: Client, cursor: nat, m: Moment, visited: set<string>) {
    forall p :: Ahead(c, m.server.log, cursor, m.records, p) ==> p in visited
  }

  ghost predicate MomentOk(c: Client, cursor: nat, m: Moment, visited: set<string>) {
    Inv(m.server) && Attuned(c, m.server.log, cursor, m.records) && AheadOnly(c, cursor, m, visited)
  }

  lemma MeanwhileOk(c: Client, cursor: nat, m: Moment, m': Moment, visited: set<string>)
    requires MomentOk(c, cursor, m, visited) && Meanwhile(c, cursor, m, m')
    ensures MomentOk(c, cursor, m', visited)
  {
    hide Inv, Attuned, Ahead, OnlyOthers, Grows, PrunesPassed;
    OthersAttuned(c, m.server, m'.server, cursor, m.records);
  }

  lemma UploadOk(c: Client, cursor: nat, m: Moment, m': Moment, rel: string, sent: Scan, opId: string, clock: Clock,
                 time: int, visited: set<string>)
    requires TrimSpace(c.root) == c.root && MomentOk(c, cursor, m, visited) && PrunesPassed(c, m.server, cursor)
    requires IsClean(rel) && (sent.state.File? || sent.state.Dir?) && rel !in visited
    requires AnsweredUpload(c, m, m', rel, sent, opId, clock, time)
    ensures MomentOk(c, cursor, m', visited + {rel})
  {
    hide Inv, Attuned, Ahead, PrunesPassed, Commit, IsClean, NotDiverted, Answered, PutBeside, Recorded, OwnGrowth,
         FollowCopy;
    var req := Upload(c, m.records, opId, rel, sent);
    var r := Commit(m.server, c.account, c.space, req, clock).1.value;
    CommitAnswers(m.server, c.account, c.space, req, clock);
    CommitOwn(m.server, c.account, c.space, req, clock);
    if NotDiverted(m.server, PathKey(c, rel), req.manifest) {
      CommitAnswered(m.server, c.account, c.space, req, clock);
    } else {
      CommitPutBeside(m.server, c.account, c.space, req, clock);
    }
    UploadAttuned(c, m.server, m'.server, cursor, m.records, opId, rel, sent, r, time);
  }

  lemma TouchOk(c: Client, cursor: nat, m: Moment, m': Moment, rel: string, modTime: int, time: int,
                visited: set<string>)
    requires MomentOk(c, cursor, m, visited) && m' == m.(records := Touched(m.records, rel, modTime, time))
    ensures MomentOk(c, cursor, m', visited)
  {
    hide Inv, ToCome, Outstanding, LastAt;
    var log := m.server.log;
    forall p
      ensures Tuned(c, log, cursor, m'.records, p)
      ensures Ahead(c, log, cursor, m'.records, p) ==> Ahead(c, log, cursor, m.records, p)
    {
      assert Tuned(c, log, cursor, m.records, p);
      TouchTracks(m.records, rel, modTime, time, p);
      if p in m.records {
        var e :| e in log && KeyOf(e.version) == PathKey(c, p) && Tracks(m.records, p, Some(e.version));
        assert Tracks(m'.records, p, Some(e.version));
      }
    }
  }

  lemma TouchTracks(records: Records, rel: string, modTime: int, time: int, p: string)
    ensures var records' := Touched(records, rel, modTime, time);
            records'.Keys == records.Keys && (p in records ==> records'[p].versionId == records[p].versionId)
            && (forall last :: Tracks(records', p, last) == Tracks(records, p, last))
            && (forall last :: Settles(records', p, last) == Settles(records, p, last))
  {
  }

  lemma VisitAmidOk(c: Client, cursor: nat, m: Moment, m': Moment, rel: string, entry: Scan, visited: set<string>)
    requires TrimSpace(c.root) == c.root && MomentOk(c, cursor, m, visited) && rel !in visited
    requires IsClean(rel) && (entry.state.File? || entry.state.Dir?) && VisitAmid(c, cursor, m, m', rel, entry)
    ensures MomentOk(c, cursor, m', visited + {rel})
  {
    hide MomentOk, AnsweredUpload, IsClean, PrunesPassed, Inv, Grows, OnlyOthers, Touched;
    if Sends(m.records, rel, entry) {
      var m1, opId, clock, time :| Meanwhile(c, cursor, m, m1)
          && AnsweredUpload(c, m1, m', rel, ToSend(entry), opId, clock, time);
      MeanwhileOk(c, cursor, m, m1, visited);
      UploadOk(c, cursor, m1, m', rel, ToSend(entry), opId, clock, time, visited);
    } else {
      if m' != m {
        var modTime, time :| m' == m.(records := Touched(m.records, rel, modTime, time));
        TouchOk(c, cursor, m, m', rel, modTime, time, visited);
      }
      MoreVisited(c, cursor, m', visited, visited + {rel});
    }
  }

  lemma MoreVisited(c: Client, cursor: nat, m: Moment, visited: set<string>, more: set<string>)
    requires MomentOk(c, cursor, m, visited) && visited <= more
    ensures MomentOk(c, cursor, m, more)
  {
  }

  lemma NoneVisited(c: Client, cursor: nat, m: Moment, m': Moment, scan: map<string, Scan>)
    requires VisitsAmid(c, cursor, m, m', scan, {})
    ensures m' == m
  {
  }

  lemma FirstVisited(c: Client, cursor: nat, m: Moment, m': Moment, scan: map<string, Scan>, todo: set<string>)
      returns (rel: string, mid: Moment)
    requires todo <= scan.Keys && todo != {} && VisitsAmid(c, cursor, m, m', scan, todo)
    ensures rel in todo && VisitAmid(c, cursor, m, mid, rel, scan[rel])
            && VisitsAmid(c, cursor, mid, m', scan, todo - {rel})
  {
    hide VisitAmid;
    rel, mid :| rel in todo && VisitAmid(c, cursor, m, mid, rel, scan[rel])
                && VisitsAmid(c, cursor, mid, m', scan, todo - {rel});
  }

  lemma {:induction false} VisitsAmidOk(c: Client, cursor: nat, m: Moment, m': Moment, scan: map<string, Scan>,
                                        todo: set<string>, visited: set<string>)
    requires TrimSpace(c.root) == c.root && MomentOk(c, cursor, m, visited) && ScanSound(scan)
    requires todo <= scan.Keys && todo !! visited && VisitsAmid(c, cursor, m, m', scan, todo)
    ensures MomentOk(c, cursor, m', visited + todo)
    decreases |todo|
  {
    hide MomentOk, VisitAmid, VisitsAmid, IsClean, ScanSound;
    if todo == {} {
      NoneVisited(c, cursor, m, m', scan);
      assert visited + todo == visited;
    } else {
      var rel, mid := FirstVisited(c, cursor, m, m', scan, todo);
      SoundEntry(scan, rel);
      VisitAmidOk(c, cursor, m, mid, rel, scan[rel], visited);
      VisitsAmidOk(c, cursor, mid, m', scan, todo - {rel}, visited + {rel});
      assert visited + {rel} + (todo - {rel}) == visited + todo;
    }
  }

  lemma SoundEntry(scan: map<string, Scan>, rel: string)
    requires ScanSound(scan) && rel in scan
    ensures IsClean(rel) && (scan[rel].state.File? || scan[rel].state.Dir?)
  {
  }

  lemma RemovedOk(c: Client, cursor: nat, m: Moment, m': Moment, rel: string, opId: string, clock: Clock, time: int,
                  visited: set<string>)
    requires TrimSpace(c.root) == c.root && MomentOk(c, cursor, m, visited) && rel !in visited
    requires rel in m.records && (m.records[rel].state.File? || m.records[rel].state.Dir?)
    requires Removed(c, m, m', rel, opId, clock, time)
    ensures MomentOk(c, cursor, m', visited)
    ensures forall p | p != rel && p in m.records :: p in m'.records && m'.records[p] == m.records[p]
  {
    hide Inv, Attuned, Ahead, Delete;
    RemovalAttuned(c, m.server, cursor, m.records, rel, opId, clock, time);
    StoreTrash.DeleteInv(m.server, c.account, c.space, Removal(c, m.records, opId, rel), clock);
  }

  lemma {:induction false} RemovesAmidOk(c: Client, cursor: nat, m: Moment, m': Moment, todo: set<string>,
                                         visited: set<string>)
    requires TrimSpace(c.root) == c.root && MomentOk(c, cursor, m, visited) && todo !! visited
    requires forall p | p in todo :: p in m.records && (m.records[p].state.File? || m.records[p].state.Dir?)
    requires RemovesAmid(c, cursor, m, m', todo)
    ensures MomentOk(c, cursor, m', visited)
    decreases |todo|
  {
    hide MomentOk, Removed, Inv, Grows, OnlyOthers, PrunesPassed;
    if todo != {} {
      var rel, m1, mid, opId, clock, time :| rel in todo && Meanwhile(c, cursor, m, m1)
                                             && Removed(c, m1, mid, rel, opId, clock, time)
                                             && RemovesAmid(c, cursor, mid, m', todo - {rel});
      MeanwhileOk(c, cursor, m, m1, visited);
      RemovedOk(c, cursor, m1, mid, rel, opId, clock, time, visited);
      RemovesAmidOk(c, cursor, mid, m', todo - {rel}, visited);
    }
  }

  lemma RefusedOk(c: Client, cursor: nat, m: Moment, m': Moment)
    requires TrimSpace(c.root) == c.root && Inv(m.server) && Attuned(c, m.server.log, cursor, m.records)
             && PrunesPassed(c, m.server, cursor) && Refused(c, m, m')
    ensures Inv(m'.server) && Attuned(c, m'.server.log, cursor, m'.records)
  {
    hide Inv, Attuned, PrunesPassed, Commit;
    var opId, rel, sent, clock :|
        var (s', r) := Commit(m.server, c.account, c.space, Upload(c, m.records, opId, rel, sent), clock);
        r.Err? && m' == m.(server := s');
    RefusedAttuned(c, m.server, cursor, m.records, Upload(c, m.records, opId, rel, sent), clock);
  }

  /** Whatever others do meanwhile, and wherever the push stops, as long as its answers are recorded: the records are
      attuned again. */
  lemma PushAttuned(c: Client, cursor: nat, m: Moment, m': Moment, chunkSize: nat)
    requires chunkSize > 0 && TrimSpace(c.root) == c.root && CleanTree(m.tree)
    requires Inv(m.server) && Attuned(c, m.server.log, cursor, m.records)
    requires forall p :: !Outstanding(c, m.server.log, cursor, p)
    requires PushedAmid(c, cursor, m, m', chunkSize)
    ensures Inv(m'.server) && Attuned(c, m'.server.log, cursor, m'.records)
  {
    hide Inv, Attuned, CleanTree, VisitsAmid, RemovesAmid, Meanwhile, Refused, ScanOf, ScanSound;
    var dirTimes: map<string, int>, visited: set<string>, mid, gone: set<string>, end, last :|
        var scan := ScanOf(m.tree, chunkSize, dirTimes);
        visited <= scan.Keys && VisitsAmid(c, cursor, m, mid, scan, visited)
        && gone <= GonePaths(mid.records, scan) && RemovesAmid(c, cursor, mid, end, gone)
        && Meanwhile(c, cursor, end, last) && (m' == last || Refused(c, last, m'));
    var scan := ScanOf(m.tree, chunkSize, dirTimes);
    ScanIsSound(m.tree, chunkSize, dirTimes);
    NoneAhead(c, cursor, m);
    VisitsAmidOk(c, cursor, m, mid, scan, visited, {});
    RemovesAmidOk(c, cursor, mid, end, gone, {} + visited);
    MeanwhileOk(c, cursor, end, last, {} + visited);
    MeanwhilePasses(c, cursor, end, last);
    if m' != last { RefusedOk(c, cursor, last, m'); }
  }

  lemma MeanwhilePasses(c: Client, cursor: nat, m: Moment, m': Moment)
    requires Meanwhile(c, cursor, m, m')
    ensures PrunesPassed(c, m'.server, cursor)
  {
  }

  lemma NoneAhead(c: Client, cursor: nat, m: Moment)
    requires forall p :: !Outstanding(c, m.server.log, cursor, p)
    ensures AheadOnly(c, cursor, m, {})
  {
    hide Coming, LastAt;
    forall p ensures !Ahead(c, m.server.log, cursor, m.records, p) {
      assert !Outstanding(c, m.server.log, cursor, p);
    }
  }

  lemma ScanIsSound(t: Tree, chunkSize: nat, dirTimes: map<string, int>)
    requires chunkSize > 0 && CleanTree(t)
    ensures ScanSound(ScanOf(t, chunkSize, dirTimes))
  {
  }

  // ---------------------------------------------------------------- the push nobody disturbs

  /** Nothing is to come. */
  ghost predicate Quiet(c: Client, cursor: nat, s: Server) {
    Inv(s) && forall p :: !Outstanding(c, s.log, cursor, p)
  }

  lemma OwnGrowthQuiet(c: Client, cursor: nat, s: Server, s': Server)
    requires TrimSpace(c.root) == c.root && Quiet(c, cursor, s) && Inv(s') && OwnGrowth(s, s', OriginOf(c))
    ensures Quiet(c, cursor, s')
  {
    hide Inv;
    OwnAre(c, s, s');
    forall p ensures !Outstanding(c, s'.log, cursor, p) {
      assert !Outstanding(c, s.log, cursor, p);
      forall e ensures Coming(c, s'.log, cursor, e, p) == Coming(c, s.log, cursor, e, p) {
        ComingSame(c, s.log, s'.log, cursor, e, p);
      }
    }
  }

  lemma ChunksMeanwhile(c: Client, cursor: nat, m: Moment, s1: Server)
    requires Quiet(c, cursor, m.server) && Inv(s1) && Grows(m.server, s1) && OnlyChunksSent(m.server, s1)
    ensures Meanwhile(c, cursor, m, m.(server := s1)) && Quiet(c, cursor, s1)
  {
    hide Inv, Outstanding, Grows;
  }

  lemma VisitIsAmid(c: Client, cursor: nat, m: Moment, m': Moment, rel: string, entry: Scan, chunkSize: nat)
    requires chunkSize > 0 && TrimSpace(c.root) == c.root && Quiet(c, cursor, m.server)
             && (entry.state.File? || entry.state.Dir?)
    requires Visited(c, m, m', rel, entry, chunkSize)
    ensures VisitAmid(c, cursor, m, m', rel, entry) && Quiet(c, cursor, m'.server)
  {
    hide Inv, Outstanding, Commit, Recorded, ChunksSent, Meanwhile, Upload, OwnGrowth, Grows, FollowCopy;
    if !Sends(m.records, rel, entry) {
    } else if entry.state.Dir? {
      var opId, clock, time :| DirSent(c, m, m', rel, entry, opId, clock, time);
      GrowsReflexive(m.server);
      ChunksMeanwhile(c, cursor, m, m.server);
      assert AnsweredUpload(c, m, m', rel, ToSend(entry), opId, clock, time);
      SentQuiet(c, cursor, m, m', rel, ToSend(entry), opId, clock, time);
    } else {
      var opId, clock, time :| FileSent(c, m, m', rel, entry, chunkSize, opId, clock, time);
      var s1 := ChunksSent(m.server, c.account, ContentAt(m.tree, rel), chunkSize, entry);
      ChunksSentKeeps(c, m.server, ContentAt(m.tree, rel), chunkSize, entry);
      var m1 := m.(server := s1);
      ChunksMeanwhile(c, cursor, m, s1);
      assert AnsweredUpload(c, m1, m', rel, ToSend(entry), opId, clock, time);
      SentQuiet(c, cursor, m1, m', rel, ToSend(entry), opId, clock, time);
    }
  }

  lemma SentQuiet(c: Client, cursor: nat, m: Moment, m': Moment, rel: string, sent: Scan, opId: string, clock: Clock,
                  time: int)
    requires TrimSpace(c.root) == c.root && Quiet(c, cursor, m.server)
    requires AnsweredUpload(c, m, m', rel, sent, opId, clock, time)
    ensures Quiet(c, cursor, m'.server)
  {
    var req := Upload(c, m.records, opId, rel, sent);
    hide Commit, OwnGrowth, Quiet, Recorded, FollowCopy, Inv;
    QuietInv(c, cursor, m.server);
    CommitInv(m.server, c.account, c.space, req, clock);
    CommitOwn(m.server, c.account, c.space, req, clock);
    OwnGrowthQuiet(c, cursor, m.server, m'.server);
  }

  lemma QuietInv(c: Client, cursor: nat, s: Server)
    requires Quiet(c, cursor, s)
    ensures Inv(s)
  {
  }

  lemma {:induction false} VisitsAreAmid(c: Client, cursor: nat, m: Moment, m': Moment, scan: map<string, Scan>,
                                         todo: set<string>, chunkSize: nat)
    requires chunkSize > 0 && TrimSpace(c.root) == c.root && Quiet(c, cursor, m.server) && ScanSound(scan)
    requires todo <= scan.Keys && VisitsAll(c, m, m', scan, todo, chunkSize)
    ensures VisitsAmid(c, cursor, m, m', scan, todo) && Quiet(c, cursor, m'.server)
    decreases |todo|
  {
    hide Quiet, Visited, VisitAmid, IsClean;
    if todo != {} {
      var rel, mid :| rel in todo && Visited(c, m, mid, rel, scan[rel], chunkSize)
                      && VisitsAll(c, mid, m', scan, todo - {rel}, chunkSize);
      VisitIsAmid(c, cursor, m, mid, rel, scan[rel], chunkSize);
      VisitsAreAmid(c, cursor, mid, m', scan, todo - {rel}, chunkSize);
    }
  }

  lemma {:induction false} RemovesAreAmid(c: Client, cursor: nat, m: Moment, m': Moment, todo: set<string>)
    requires TrimSpace(c.root) == c.root && Quiet(c, cursor, m.server) && RemovesAll(c, m, m', todo)
    ensures RemovesAmid(c, cursor, m, m', todo) && Quiet(c, cursor, m'.server)
    decreases |todo|
  {
    hide Quiet, Meanwhile;
    if todo != {} {
      var rel, mid, opId, clock, time :| rel in todo && Removed(c, m, mid, rel, opId, clock, time)
                                         && RemovesAll(c, mid, m', todo - {rel});
      RemovedQuiet(c, cursor, m, mid, rel, opId, clock, time);
      hide Removed;
      RemovesAreAmid(c, cursor, mid, m', todo - {rel});
      assert Meanwhile(c, cursor, m, m) && Removed(c, m, mid, rel, opId, clock, time);
    }
  }

  lemma RemovedQuiet(c: Client, cursor: nat, m: Moment, m': Moment, rel: string, opId: string, clock: Clock, time: int)
    requires TrimSpace(c.root) == c.root && Quiet(c, cursor, m.server) && Removed(c, m, m', rel, opId, clock, time)
    ensures Quiet(c, cursor, m'.server) && Meanwhile(c, cursor, m, m)
  {
    var req := Removal(c, m.records, opId, rel);
    GrowsReflexive(m.server);
    ChunksMeanwhile(c, cursor, m, m.server);
    hide Delete, OwnGrowth, Quiet, Recorded, Inv, Meanwhile;
    QuietInv(c, cursor, m.server);
    StoreTrash.DeleteInv(m.server, c.account, c.space, req, clock);
    DeleteOwn(m.server, c.account, c.space, req, clock);
    OwnGrowthQuiet(c, cursor, m.server, m'.server);
  }

  /** A push that gets through undisturbed is one of these. */
  lemma PushedIsAmid(c: Client, cursor: nat, m: Moment, m': Moment, chunkSize: nat)
    requires chunkSize > 0 && TrimSpace(c.root) == c.root && CleanTree(m.tree) && Quiet(c, cursor, m.server)
    requires Pushed(c, m, m', chunkSize)
    ensures PushedAmid(c, cursor, m, m', chunkSize)
  {
    hide Quiet, CleanTree, VisitsAll, RemovesAll, VisitsAmid, RemovesAmid, Meanwhile, Refused, ScanOf, ScanSound;
    var dirTimes: map<string, int>, mid :|
        var scan := ScanOf(m.tree, chunkSize, dirTimes);
        VisitsAll(c, m, mid, scan, scan.Keys, chunkSize) && RemovesAll(c, mid, m', GonePaths(mid.records, scan));
    var scan := ScanOf(m.tree, chunkSize, dirTimes);
    ScanIsSound(m.tree, chunkSize, dirTimes);
    VisitsAreAmid(c, cursor, m, mid, scan, scan.Keys, chunkSize);
    RemovesAreAmid(c, cursor, mid, m', GonePaths(mid.records, scan));
    StaysMeanwhile(c, cursor, m');
    assert VisitsAmid(c, cursor, m, mid, scan, scan.Keys)
           && RemovesAmid(c, cursor, mid, m', GonePaths(mid.records, scan)) && Meanwhile(c, cursor, m', m');
  }

  lemma StaysMeanwhile(c: Client, cursor: nat, m: Moment)
    requires Quiet(c, cursor, m.server)
    ensures Meanwhile(c, cursor, m, m)
  {
    GrowsReflexive(m.server);
    ChunksMeanwhile(c, cursor, m, m.server);
  }

  // ---------------------------------------------------------------- others at work, as runs of the protocol

  /** The step is none in which a request of the client is handled. */
  predicate ByOthers(c: Client, w: World, step: Step) {
    match step
    case HandleCommit(opId, plan, clock) =>
      IsSentCommit(w, opId) ==>
        var x, req := w.clients[w.sent[opId].client], w.sent[opId].message.commit;
        x.account != c.account || x.space != c.space || req.device != c.device || TrimSpace(req.root) != c.root
    case HandleDelete(opId, clock) =>
      IsSentDelete(w, opId) ==>
        var x, req := w.clients[w.sent[opId].client], w.sent[opId].message.delete;
        x.account != c.account || x.space != c.space || req.device != c.device || TrimSpace(req.root) != c.root
    case _ => true
  }

  predicate AllByOthers(c: Client, w: World, steps: seq<Step>)
    decreases |steps|
  {
    steps == [] || (ByOthers(c, w, steps[0]) && AllByOthers(c, Next(w, steps[0]), steps[1..]))
  }

  lemma OriginNotOwn(c: Client, s: Server, s': Server, o: Origin)
    requires OwnGrowth(s, s', o)
    requires o.account != c.account || o.space != c.space || o.device != c.device || o.root != c.root
    ensures OnlyOthers(c, s, s')
  {
  }

  lemma OthersOn(c: Client, a: Server, b: Server, d: Server)
    requires OnlyOthers(c, a, b) && OnlyOthers(c, b, d)
    ensures OnlyOthers(c, a, d)
  {
    forall i | |a.log| <= i < |d.log| ensures d.log[i] == (if i < |b.log| then b.log[i] else d.log[i]) {}
  }

  lemma CommitLockedOwn(s: Server, account: string, space: string, req: CommitRequest, plan: Plan, clock: Clock)
    ensures OwnGrowth(s, CommitLocked(s, account, space, req, plan, clock).0,
                      RequestOrigin(account, space, req.device, req.root))
  {
    hide EnsureParents, CommitEntry, Ancestors;
    var o := RequestOrigin(account, space, req.device, req.root);
    var dirs := Ancestors(plan.path);
    var s1 := EnsureParents(s, o, dirs, req.manifest.modTime, clock);
    EnsureParentsOwn(s, o, dirs, req.manifest.modTime, clock);
    CommitEntryOwn(s1, o, req.manifest, plan.path, plan.state, clock);
    OwnGrowthOn(s, s1, CommitEntry(s1, o, req.manifest, plan.path, plan.state, clock).0, o);
  }

  /** A restore writes the name of its own root into the version. */
  lemma RestoreNotOwn(c: Client, s: Server, account: string, req: RestoreRequest, actor: string, clock: Clock)
    requires c.root != CLOUD_TRASH_ROOT
    ensures OnlyOthers(c, s, Restore(s, account, req, actor, clock).0)
  {
    hide CleanRel, SpaceActive, RestoreSource, RestoreDevice, RestoreSpace, Expired, Install, Prune, OnlyOthers;
    PruneKeepsLog(s, clock.now);
    var s1, space := Prune(s, clock.now), RestoreSpace(req);
    var s' := Restore(s, account, req, actor, clock).0;
    NobodyIsOthers(c, s);
    SameLogIsOthers(c, s, s1);
    if CleanRel(req.path).Ok? {
      var key := Key(account, space, CleanRel(req.path).value);
      if key in s1.files && InTrash(s1.files[key]) {
        var t := s1.files[key].current.value;
        match RestoreSource(History(s1.versions, req.fileId), t)
        case None =>
        case Some(source) =>
          var v := RestoredVersion(account, space, key, s1.files[key], source, t.versionId, Issued(s1.nextId),
                                   RestoreDevice(actor), clock.now);
          InstallOthers(c, s1, key, v);
          SameLogIsOthers(c, s, s1);
          InstalledAfterPrune(c, s, s1, Install(s1, key, v), s');
      }
    }
  }

  lemma SameLogIsOthers(c: Client, s: Server, s': Server)
    requires s'.log == s.log
    ensures OnlyOthers(c, s, s')
  {
  }

  lemma InstallOthers(c: Client, s: Server, key: Key, v: FileVersion)
    requires key in s.files && v.root != c.root
    ensures OnlyOthers(c, s, Install(s, key, v))
  {
  }

  lemma InstalledAfterPrune(c: Client, s: Server, s1: Server, s2: Server, s': Server)
    requires s1.log == s.log && OnlyOthers(c, s1, s2)
    ensures s'.log == s2.log ==> OnlyOthers(c, s, s')
  {
  }

  lemma StepByOthers(c: Client, w: World, step: Step)
    requires ByOthers(c, w, step) && c.root != CLOUD_TRASH_ROOT
    ensures OnlyOthers(c, w.server, Next(w, step).server)
  {
    hide CheckCommit, CommitLocked, Delete, Restore, Prune, PutChunk, GrantAccountChunk, Recorded, Applied, Upload,
         Removal, EventsAfter, IsClean, OwnGrowth, Touched;
    match step
    case HandleCommit(opId, plan, clock) =>
      if IsSentCommit(w, opId) && (opId, plan) in w.checked {
        var x, req := w.clients[w.sent[opId].client], w.sent[opId].message.commit;
        CommitLockedOwn(w.server, x.account, x.space, req, plan, clock);
        OriginNotOwn(c, w.server, Next(w, step).server, RequestOrigin(x.account, x.space, req.device, req.root));
      }
    case HandleDelete(opId, clock) =>
      if IsSentDelete(w, opId) {
        var x, req := w.clients[w.sent[opId].client], w.sent[opId].message.delete;
        DeleteOwn(w.server, x.account, x.space, req, clock);
        OriginNotOwn(c, w.server, Next(w, step).server, RequestOrigin(x.account, x.space, req.device, req.root));
      }
    case RestoreFile(account, req, actor, clock) => RestoreNotOwn(c, w.server, account, req, actor, clock);
    case PruneTrash(time) => PruneKeepsLog(w.server, time);
    case UploadChunk(account, hash, data) => ChunkKeepsLog(w.server, account, hash, data);
    case _ =>
  }

  lemma PruneKeepsLog(s: Server, now: int)
    ensures Prune(s, now).log == s.log
  {
  }

  lemma ChunkKeepsLog(s: Server, account: string, hash: string, data: Bytes)
    ensures GrantAccountChunk(PutChunk(s, hash, data).0, account, hash).0.log == s.log
  {
  }

  /** Whatever other clients, restores and prunes do in any run is others' work as `ActiveReplica` asks for. */
  lemma {:induction false} RunByOthers(c: Client, w: World, steps: seq<Step>)
    requires AllByOthers(c, w, steps) && c.root != CLOUD_TRASH_ROOT
    ensures OnlyOthers(c, w.server, Run(w, steps).server)
    decreases |steps|
  {
    hide OnlyOthers, Next, ByOthers;
    if steps == [] {
      NobodyIsOthers(c, w.server);
    } else {
      var w1 := Next(w, steps[0]);
      StepByOthers(c, w, steps[0]);
      RunByOthers(c, w1, steps[1..]);
      OthersOn(c, w.server, w1.server, Run(w1, steps[1..]).server);
    }
  }

  lemma NobodyIsOthers(c: Client, s: Server)
    ensures OnlyOthers(c, s, s)
  {
  }
}
