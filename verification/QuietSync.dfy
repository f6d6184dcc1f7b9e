/** When a `syncOnce` changes nothing (internal/client/sync.go): the exact condition, on the state before it. */
module QuietSync {
  import opened Model
  import opened Paths
  import opened LocalFiles
  import opened StoreSpec
  import opened StoreInvariant
  import opened StoreGrowth
  import opened StoreTrash
  import opened SyncProtocol
  import opened ClientEngine
  import opened DirectoryCleanup
  import opened Redelivery
  import opened FileChunks
  import opened EngineRuns
  import opened PushStores

  // ---------------------------------------------------------------- pulls

  lemma {:induction false} FilteredAfter(events: seq<Event>, account: string, space: string, after: nat)
    ensures forall e | e in FilterEvents(events, account, space, after) :: e.seqNo > after
  {
    if events != [] { FilteredAfter(events[..|events| - 1], account, space, after); }
  }

  /** The cursor never moves back, and moves on with every event that is past it. */
  lemma {:induction false} CursorMoves(c: Copy, device: string, root: string, events: seq<Event>, envs: seq<Env>)
    ensures var (c', done) := PullEvents(c, device, root, events, envs);
            c'.cursor >= c.cursor && (done && events != [] && events[0].seqNo > c.cursor ==> c'.cursor > c.cursor)
    decreases |events|
  {
    hide ApplyVersion;
    if events == [] || envs == [] {
    } else if OwnEvent(device, root, events[0]) {
      CursorMoves(Advance(c, events[0]), device, root, events[1..], envs[1..]);
    } else {
      var (c1, done) := ApplyVersion(c, device, events[0].version, envs[0]);
      ApplyRecords(c, device, events[0].version, envs[0]);
      if done { CursorMoves(Advance(c1, events[0]), device, root, events[1..], envs[1..]); }
    }
  }

  /** A pull that succeeds and leaves the cursor got no events, and only cleaned up. */
  lemma QuietPull(s: Server, account: string, space: string, c: Copy, device: string, root: string, envs: seq<Env>,
                  c': Copy)
    requires WellFormed(c.tree)
    requires PullEnds(c, device, root, EventsAfter(s, account, space, c.cursor), envs, c', true)
    ensures c'.cursor >= c.cursor
    ensures c'.cursor == c.cursor <==> EventsAfter(s, account, space, c.cursor) == []
    ensures c'.cursor == c.cursor ==>
              c' == c.(tree := Cleaned(c.tree, DeletedDirs(c.records)))
              && forall d | d in DeletedDirs(c.records) :: !Stuck(c.tree, d)
  {
    hide EventsAfter, RemoveEach, WellFormed, Cleaned, Stuck, LongestFirst;
    var answer := EventsAfter(s, account, space, c.cursor);
    var sorted := SortBySeq(answer);
    CursorMoves(c, device, root, sorted, envs);
    SortedAscending(answer);
    FilteredAfter(s.events, account, space, c.cursor);
    if answer != [] {
      assert |multiset(sorted)| == |multiset(answer)| == |answer|;
      assert sorted[0] in multiset(sorted);
      AnswerIsFilter(s, account, space, c.cursor);
    } else {
      var order :| LongestFirst(order) && SetOf(order) == DeletedDirs(c.records)
          && (c'.tree, true) == RemoveEach(c.tree, order);
      AnyOrderCleans(c.tree, order);
      forall d | d in DeletedDirs(c.records) ensures !Stuck(c.tree, d) { assert d in SetOf(order); }
    }
  }

  lemma AnswerIsFilter(s: Server, account: string, space: string, after: nat)
    ensures EventsAfter(s, account, space, after) == FilterEvents(s.events, account, space, after)
  {
  }

  // ---------------------------------------------------------------- pushes

  /** The scan agrees with the records, modification times included. */
  predicate UpToDate(records: Records, scan: map<string, Scan>) {
    forall p | p in scan ::
      if scan[p].state.Dir? then p in records && records[p].state.Dir?
      else Agrees(records, p, scan[p]) && records[p].modTime == scan[p].modTime
  }

  lemma {:induction false} UpToDateVisits(c: Client, m: Moment, m': Moment, scan: map<string, Scan>, todo: set<string>,
                                          chunkSize: nat)
    requires chunkSize > 0 && todo <= scan.Keys && UpToDate(m.records, scan)
    requires VisitsAll(c, m, m', scan, todo, chunkSize)
    ensures m' == m
    decreases |todo|
  {
    hide FileSent, DirSent;
    if todo != {} {
      var rel, mid :| rel in todo && Visited(c, m, mid, rel, scan[rel], chunkSize)
                      && VisitsAll(c, mid, m', scan, todo - {rel}, chunkSize);
      UpToDateVisits(c, mid, m', scan, todo - {rel}, chunkSize);
    }
  }

  /** What visits do that send nothing: they bring modification times up to date. */
  ghost predicate OnlyTouched(m: Moment, m': Moment, scan: map<string, Scan>, todo: set<string>)
    requires todo <= scan.Keys
  {
    m'.server == m.server && m'.tree == m.tree
    && (forall p | p !in todo ::
          (p in m'.records <==> p in m.records) && (p in m.records ==> m'.records[p] == m.records[p]))
    && (forall p | p in todo ::
          if scan[p].state.Dir? then p in m.records && m.records[p].state.Dir? && p in m'.records
             && m'.records[p] == m.records[p]
          else Agrees(m.records, p, scan[p]) && p in m'.records && m'.records[p].modTime == scan[p].modTime
               && (m.records[p].modTime == scan[p].modTime ==> m'.records[p] == m.records[p]))
  }

  /** A visit that sends something leaves a new answer on the server. */
  lemma SendingShows(c: Client, m: Moment, m': Moment, rel: string, entry: Scan, chunkSize: nat)
    requires chunkSize > 0 && Inv(m.server) && IsClean(rel) && (entry.state.File? || entry.state.Dir?)
    requires Visited(c, m, m', rel, entry, chunkSize)
    ensures (exists op :: op in m'.server.ops && op !in m.server.ops)
            || (m'.server == m.server && m'.tree == m.tree
                && if entry.state.Dir? then rel in m.records && m.records[rel].state.Dir? && m'.records == m.records
                   else Agrees(m.records, rel, entry)
                        && if m.records[rel].modTime == entry.modTime then m'.records == m.records
                           else exists time :: m'.records == Touched(m.records, rel, entry.modTime, time))
  {
    hide Inv, Commit, IsClean, Upload, Recorded, SendBlocks;
    if entry.state.Dir? && !(rel in m.records && m.records[rel].state.Dir?) {
      var opId, clock, time :| DirSent(c, m, m', rel, entry, opId, clock, time);
      var req := Upload(c, m.records, opId, rel, DirScan(entry));
      UploadId(c, m.records, opId, rel, DirScan(entry));
      CommitShows(m.server, c.account, c.space, req, clock);
    } else if entry.state.File? && !Agrees(m.records, rel, entry) {
      var opId, clock, time :| FileSent(c, m, m', rel, entry, chunkSize, opId, clock, time);
      var s1 := ChunksSent(m.server, c.account, ContentAt(m.tree, rel), chunkSize, entry);
      UploadId(c, m.records, opId, rel, entry);
      CommitShows(s1, c.account, c.space, Upload(c, m.records, opId, rel, entry), clock);
    }
  }

  lemma UploadId(c: Client, records: Records, opId: string, rel: string, entry: Scan)
    ensures Upload(c, records, opId, rel, entry).opId == opId
  {
  }

  lemma CommitShows(s: Server, account: string, space: string, req: CommitRequest, clock: Clock)
    requires Commit(s, account, space, req, clock).1.Ok?
    ensures Key(account, space, req.opId) in Commit(s, account, space, req, clock).0.ops
  {
  }

  lemma {:induction false} QuietVisits(c: Client, m: Moment, m': Moment, scan: map<string, Scan>, todo: set<string>,
                                       chunkSize: nat)
    requires chunkSize > 0 && todo <= scan.Keys && ScanSound(scan) && Inv(m.server)
    requires VisitsAll(c, m, m', scan, todo, chunkSize)
    ensures Inv(m'.server) && Grows(m.server, m'.server)
    ensures m'.server.ops == m.server.ops ==> OnlyTouched(m, m', scan, todo)
    decreases |todo|
  {
    hide Inv, Visited, IsClean, Grows, OnlyTouched;
    GrowsReflexive(m.server);
    if todo == {} {
      NothingTouched(m, scan);
    } else {
      var rel, mid :| rel in todo && Visited(c, m, mid, rel, scan[rel], chunkSize)
                      && VisitsAll(c, mid, m', scan, todo - {rel}, chunkSize);
      var q := VisitWent(c, m, mid, rel, scan[rel], chunkSize);
      QuietVisits(c, mid, m', scan, todo - {rel}, chunkSize);
      GrowsTransitive(m.server, mid.server, m'.server);
      SendingShows(c, m, mid, rel, scan[rel], chunkSize);
      if m'.server.ops == m.server.ops {
        SameOps(m.server, mid.server, m'.server);
        OneTouched(m, mid, m', scan, todo, rel);
      }
    }
  }

  lemma NothingTouched(m: Moment, scan: map<string, Scan>)
    ensures OnlyTouched(m, m, scan, {})
  {
  }

  lemma SameOps(a: Server, b: Server, c: Server)
    requires Grows(a, b) && Grows(b, c) && c.ops == a.ops
    ensures b.ops == a.ops
  {
  }

  lemma OneTouched(m: Moment, mid: Moment, m': Moment, scan: map<string, Scan>, todo: set<string>, rel: string)
    requires todo <= scan.Keys && rel in todo && OnlyTouched(mid, m', scan, todo - {rel})
    requires mid.server == m.server && mid.tree == m.tree
    requires if scan[rel].state.Dir? then rel in m.records && m.records[rel].state.Dir? && mid.records == m.records
             else Agrees(m.records, rel, scan[rel])
                  && if m.records[rel].modTime == scan[rel].modTime then mid.records == m.records
                     else exists time :: mid.records == Touched(m.records, rel, scan[rel].modTime, time)
    ensures OnlyTouched(m, m', scan, todo)
  {
  }

  lemma QuietRemovals(c: Client, m: Moment, m': Moment, todo: set<string>)
    requires RemovesAll(c, m, m', todo) && Inv(m.server) && m'.server.ops == m.server.ops
    ensures todo == {} && m' == m
  {
    hide Inv, Grows, Delete, Recorded, Removal;
    if todo != {} {
      var rel, mid, opId, clock, time :| rel in todo && Removed(c, m, mid, rel, opId, clock, time)
                                         && RemovesAll(c, mid, m', todo - {rel});
      var req := Removal(c, m.records, opId, rel);
      RemovalId(c, m.records, opId, rel);
      DeleteInv(m.server, c.account, c.space, req, clock);
      DeleteRecords(m.server, c.account, c.space, req, clock);
      RemovalsKeep(c, mid, m', todo - {rel});
      GrantsGrow(mid.server, m'.server);
    }
  }

  lemma RemovalId(c: Client, records: Records, opId: string, rel: string)
    ensures Removal(c, records, opId, rel).opId == opId
  {
  }

  /** The times of directories make no difference to what has to be sent. */
  lemma DirTimesIgnored(t: Tree, records: Records, chunkSize: nat, a: map<string, int>, b: map<string, int>)
    requires chunkSize > 0
    ensures UpToDate(records, ScanOf(t, chunkSize, a)) == UpToDate(records, ScanOf(t, chunkSize, b))
    ensures GonePaths(records, ScanOf(t, chunkSize, a)) == GonePaths(records, ScanOf(t, chunkSize, b))
  {
    hide Blocks, RefsOf;
  }

  lemma SettledPush(c: Client, m: Moment, m': Moment, chunkSize: nat)
    requires chunkSize > 0 && Pushed(c, m, m', chunkSize)
    requires var scan := ScanOf(m.tree, chunkSize, map[]); UpToDate(m.records, scan) && GonePaths(m.records, scan) == {}
    ensures m' == m
  {
    hide VisitsAll, UpToDate, ScanOf, GonePaths;
    var dirTimes: map<string, int>, mid :|
        var scan := ScanOf(m.tree, chunkSize, dirTimes);
        VisitsAll(c, m, mid, scan, scan.Keys, chunkSize) && RemovesAll(c, mid, m', GonePaths(mid.records, scan));
    var scan := ScanOf(m.tree, chunkSize, dirTimes);
    DirTimesIgnored(m.tree, m.records, chunkSize, dirTimes, map[]);
    UpToDateVisits(c, m, mid, scan, scan.Keys, chunkSize);
  }

  /** A push that leaves the server as it was sent nothing; if it left the records too, they were up to date. */
  lemma QuietPush(c: Client, m: Moment, m': Moment, chunkSize: nat)
    requires chunkSize > 0 && Pushed(c, m, m', chunkSize)
    requires Inv(m.server) && CleanTree(m.tree) && m'.server == m.server
    ensures m'.tree == m.tree
    ensures m'.records == m.records ==>
              var scan := ScanOf(m.tree, chunkSize, map[]);
              UpToDate(m.records, scan) && GonePaths(m.records, scan) == {}
  {
    hide VisitsAll, RemovesAll, GonePaths, Inv, IsClean, Blocks;
    var dirTimes: map<string, int>, mid :|
        var scan := ScanOf(m.tree, chunkSize, dirTimes);
        VisitsAll(c, m, mid, scan, scan.Keys, chunkSize) && RemovesAll(c, mid, m', GonePaths(mid.records, scan));
    var scan := ScanOf(m.tree, chunkSize, dirTimes);
    DirTimesIgnored(m.tree, m.records, chunkSize, dirTimes, map[]);
    QuietVisits(c, m, mid, scan, scan.Keys, chunkSize);
    RemovalsKeep(c, mid, m', GonePaths(mid.records, scan));
    SameOps(m.server, mid.server, m'.server);
    QuietRemovals(c, mid, m', GonePaths(mid.records, scan));
  }

  lemma PullCursor(c: Copy, device: string, root: string, answer: seq<Event>, envs: seq<Env>, c': Copy, done: bool)
    requires PullEnds(c, device, root, answer, envs, c', done)
    ensures c'.cursor >= c.cursor
  {
    hide SortBySeq;
    CursorMoves(c, device, root, SortBySeq(answer), envs);
  }

  // ---------------------------------------------------------------- the whole

  /** Nothing is left to do: no events, nothing to clean up, every file and directory recorded as it is, and every
      recorded one there. */
  ghost predicate Settled(c: Client, s: Server, before: Copy, chunkSize: nat)
    requires chunkSize > 0
  {
    var dirs, scan := DeletedDirs(before.records), ScanOf(before.tree, chunkSize, map[]);
    EventsAfter(s, c.account, c.space, before.cursor) == []
    && Cleaned(before.tree, dirs) == before.tree
    && UpToDate(before.records, scan) && GonePaths(before.records, scan) == {}
  }

  /** A successful `syncOnce` of a client nobody interferes with changes neither server nor client if and only if there
      was nothing left to do.  In particular a second one after it changes nothing exactly in that case. */
  lemma SyncOnceIsQuiet(c: Client, s: Server, before: Copy, first: seq<Env>, pulled: Copy, pushed: Moment,
                        second: seq<Env>, final: Copy, chunkSize: nat)
    requires chunkSize > 0 && Inv(s) && WellFormed(before.tree) && CleanTree(before.tree)
    requires PullEnds(before, c.device, c.root, EventsAfter(s, c.account, c.space, before.cursor), first, pulled, true)
    requires Pushed(c, Moment(s, pulled.records, pulled.tree), pushed, chunkSize)
    requires PullEnds(Copy(pushed.records, pulled.cursor, pushed.tree), c.device, c.root,
                      EventsAfter(pushed.server, c.account, c.space, pulled.cursor), second, final, true)
    ensures Settled(c, s, before, chunkSize) <==> pushed.server == s && final == before
  {
    hide Inv, WellFormed, CleanTree, PullEnds, Pushed, EventsAfter, Cleaned, UpToDate, GonePaths, ScanOf, Stuck;
    QuietPull(s, c.account, c.space, before, c.device, c.root, first, pulled);
    if Settled(c, s, before, chunkSize) {
      SettledPush(c, Moment(s, before.records, before.tree), pushed, chunkSize);
      QuietPull(s, c.account, c.space, before, c.device, c.root, second, final);
    }
    if pushed.server == s && final == before {
      PullCursor(Copy(pushed.records, pulled.cursor, pushed.tree), c.device, c.root,
                 EventsAfter(pushed.server, c.account, c.space, pulled.cursor), second, final, true);
      PullEndsClean(before, c.device, c.root, EventsAfter(s, c.account, c.space, before.cursor), first, pulled, true);
      CleanedWellFormed(before.tree, DeletedDirs(before.records));
      QuietPush(c, Moment(s, pulled.records, pulled.tree), pushed, chunkSize);
      QuietPull(s, c.account, c.space, Copy(pushed.records, pulled.cursor, pushed.tree), c.device, c.root, second,
                final);
      CleanedIsFixpoint(before.tree, DeletedDirs(before.records));
    }
  }
}
