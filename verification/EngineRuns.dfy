/** What pushing does to the server, the records and the local files (internal/client/sync.go), and pushes and
    pulls as runs of the protocol. */
module EngineRuns {
  import opened Model
  import opened Paths
  import opened ClientRecords
  import opened LocalFiles
  import opened StoreSpec
  import opened StoreInvariant
  import opened FileChunks
  import opened SyncProtocol
  import opened SyncSafety
  import opened ClientEngine
  import opened DirectoryCleanup
  import opened UnsyncedContent
  import opened StoreGrowth
  import opened Redelivery
  import ChunkRefs

  /** The server, the records and the local files at one moment of a push. */
  datatype Moment = Moment(server: Server, records: Records, tree: Tree)

  // ---------------------------------------------------------------- single operations

  /** The local file follows its content to the path of the server's conflict copy. */
  function FollowCopy(t: Tree, rel: string, r: CommitResponse): (Tree, bool) {
    if r.version.Some? && r.version.value.path != rel && r.conflictPath != "" then
      var (t1, made) := EnsureParent(t, r.conflictPath);
      if !made.Done? then (t1, false)
      else
        var (t2, renamed) := Rename(t1, rel, r.conflictPath);
        (t2, renamed.Done?)
    else (t, true)
  }

  function MissingOf(s: Server, account: string, entry: Scan): set<string> {
    set h | h in CheckChunks(s, account, HashesOf(entry.chunks))
  }

  /** The server once the missing chunks of a file were sent. */
  function ChunksSent(s: Server, account: string, content: Bytes, chunkSize: nat, entry: Scan): Server
    requires chunkSize > 0
  {
    if CheckChunks(s, account, HashesOf(entry.chunks)) == [] then s
    else SendBlocks(s, account, Blocks(content, chunkSize), MissingOf(s, account, entry))
  }

  lemma ChunksSentIs(s: Server, account: string, content: Bytes, chunkSize: nat, entry: Scan)
    requires chunkSize > 0
    ensures ChunksSent(s, account, content, chunkSize, entry) == s
            || ChunksSent(s, account, content, chunkSize, entry)
               == SendBlocks(s, account, Blocks(content, chunkSize), MissingOf(s, account, entry))
  {
  }

  /** What sending chunks leaves alone. */
  predicate OnlyChunksSent(s: Server, s1: Server) {
    s1.files == s.files && s1.log == s.log && s1.nextId == s.nextId && s1.ops == s.ops
  }

  lemma {:induction false} SendingOnlySends(s: Server, account: string, blocks: seq<Bytes>, missing: set<string>)
    ensures OnlyChunksSent(s, SendBlocks(s, account, blocks, missing))
  {
    if blocks != [] { SendingOnlySends(s, account, blocks[..|blocks| - 1], missing); }
  }

  function ContentAt(t: Tree, rel: string): Bytes { if IsFile(t, rel) then t[rel].data else [] }

  /** No request was answered under the operation id before. */
  predicate Unused(c: Client, m: Moment, opId: string) { Key(c.account, c.space, opId) !in m.server.ops }

  /** `uploadFile` succeeded: missing chunks were sent, the manifest committed, the answer recorded. */
  ghost predicate FileSent(c: Client, m: Moment, m': Moment, rel: string, entry: Scan, chunkSize: nat, opId: string,
                           clock: Clock, time: int)
    requires chunkSize > 0
  {
    var s1 := ChunksSent(m.server, c.account, ContentAt(m.tree, rel), chunkSize, entry);
    var req := Upload(c, m.records, opId, rel, entry);
    var (s2, r) := Commit(s1, c.account, c.space, req, clock);
    Unused(c, m, opId) && r.Ok? && r.value.version.Some?
    && m' == Moment(s2, Recorded(m.records, CommitMessage(req), r.value, time), m'.tree)
    && (m'.tree, true) == FollowCopy(m.tree, rel, r.value)
  }

  /** What `uploadDir` sends: no content. */
  function DirScan(entry: Scan): Scan { entry.(state := Dir, size := 0, hash := "", chunks := []) }

  /** `uploadDir` succeeded. */
  ghost predicate DirSent(c: Client, m: Moment, m': Moment, rel: string, entry: Scan, opId: string, clock: Clock,
                          time: int) {
    var req := Upload(c, m.records, opId, rel, DirScan(entry));
    var (s2, r) := Commit(m.server, c.account, c.space, req, clock);
    Unused(c, m, opId) && r.Ok? && r.value.version.Some?
    && m' == Moment(s2, Recorded(m.records, CommitMessage(req), r.value, time), m.tree)
  }

  /** The record agrees with the scanned file. */
  predicate Agrees(records: Records, rel: string, entry: Scan) {
    rel in records && records[rel].state.File? && records[rel].hash == entry.hash && records[rel].size == entry.size
  }

  /** One round of the first loop of `pushLocal`. */
  ghost predicate Visited(c: Client, m: Moment, m': Moment, rel: string, entry: Scan, chunkSize: nat)
    requires chunkSize > 0
  {
    if entry.state.Dir? then
      if rel in m.records && m.records[rel].state.Dir? then m' == m
      else exists opId, clock, time :: DirSent(c, m, m', rel, entry, opId, clock, time)
    else if Agrees(m.records, rel, entry) then
      if m.records[rel].modTime == entry.modTime then m' == m
      else exists time :: m' == m.(records := Touched(m.records, rel, entry.modTime, time))
    else exists opId, clock, time :: FileSent(c, m, m', rel, entry, chunkSize, opId, clock, time)
  }

  /** One round of the second loop: for a path recorded as there, but not found, a deletion was answered; an ok answer
      is recorded, a conflict leaves files and record alone. */
  ghost predicate Removed(c: Client, m: Moment, m': Moment, rel: string, opId: string, clock: Clock, time: int) {
    var req := Removal(c, m.records, opId, rel);
    var (s, r) := Delete(m.server, c.account, c.space, req, clock);
    Unused(c, m, opId) && r.Ok?
    && m' == Moment(s, Recorded(m.records, DeleteMessage(req), r.value, time), m.tree)
  }

  // ---------------------------------------------------------------- runs of the protocol

  ghost predicate Leads(w: World, w': World) { exists steps :: Run(w, steps) == w' }

  lemma LeadsNext(w: World, step: Step)
    ensures Leads(w, Next(w, step))
  {
    hide Next;
    assert Run(Next(w, step), [][..]) == Next(w, step);
    assert [step][1..] == [];
    assert Run(w, [step]) == Next(w, step);
  }

  lemma LeadsNowhere(w: World)
    ensures Leads(w, w)
  {
    assert Run(w, []) == w;
  }

  lemma {:induction false} RunConcat(w: World, a: seq<Step>, b: seq<Step>)
    ensures Run(w, a + b) == Run(Run(w, a), b)
    decreases |a|
  {
    hide Next;
    if a == [] {
      assert a + b == b;
    } else {
      assert (a + b)[0] == a[0] && (a + b)[1..] == a[1..] + b;
      RunConcat(Next(w, a[0]), a[1..], b);
    }
  }

  lemma LeadsOn(a: World, b: World, c: World)
    requires Leads(a, b) && Leads(b, c)
    ensures Leads(a, c)
  {
    hide Run;
    var x :| Run(a, x) == b;
    var y :| Run(b, y) == c;
    RunConcat(a, x, y);
  }

  lemma LeadsOk(w: World, w': World)
    requires WorldOk(w) && Leads(w, w')
    ensures WorldOk(w')
  {
    hide Run, WorldOk;
    var steps :| Run(w, steps) == w';
    RunOk(w, steps);
  }

  /** The servers of a run, early and late, are as the convergence of a passive client asks. */
  lemma ServersOfRun(w: World, early: seq<Step>, late: seq<Step>)
    requires Initial(w)
    ensures Inv(Run(w, early).server)
    ensures Grows(Run(w, early).server, Run(w, early + late).server)
  {
    hide Run, Grows, Initial;
    InitialOk(w);
    RunOk(w, early);
    RunConcat(w, early, late);
    RunGrows(Run(w, early), late);
    ServerInv(Run(w, early));
  }

  lemma ServerInv(w: World)
    requires WorldOk(w)
    ensures Inv(w.server)
  {
  }

  /** `w` is the world seen from client `id`. */
  ghost predicate Stands(w: World, id: nat, c: Client, s: Server, records: Records, cursor: nat) {
    IsClient(w, id) && w.clients[id] == c && w.server == s && w.locals[id].records == records
      && w.locals[id].cursor == cursor
  }

  /** The world after a commit was sent and handled, its answer not yet received. */
  ghost function Committed(w: World, id: nat, opId: string, path: string, scan: Scan, clock: Clock): World
    requires IsClient(w, id)
  {
    var c := w.clients[id];
    var req := Upload(c, w.locals[id].records, opId, path, scan);
    var w1 := Next(w, SendCommit(id, opId, path, scan));
    match CheckCommit(w.server, c.account, c.space, req)
    case Err(_) => w1
    case Ok(plan) => Next(Next(w1, CheckSent(opId)), HandleCommit(opId, plan, clock))
  }

  lemma CommittedLeads(w: World, id: nat, opId: string, path: string, scan: Scan, clock: Clock)
    requires IsClient(w, id)
    ensures Leads(w, Committed(w, id, opId, path, scan, clock))
  {
    hide Next, Leads, CheckCommit, Upload;
    var c := w.clients[id];
    var req := Upload(c, w.locals[id].records, opId, path, scan);
    var w1 := Next(w, SendCommit(id, opId, path, scan));
    LeadsNext(w, SendCommit(id, opId, path, scan));
    match CheckCommit(w.server, c.account, c.space, req)
    case Err(_) =>
    case Ok(plan) =>
      var w2 := Next(w1, CheckSent(opId));
      LeadsNext(w1, CheckSent(opId));
      LeadsNext(w2, HandleCommit(opId, plan, clock));
      LeadsOn(w, w1, w2);
      LeadsOn(w, w2, Next(w2, HandleCommit(opId, plan, clock)));
  }

  lemma CommittedIs(w: World, id: nat, opId: string, path: string, scan: Scan, clock: Clock)
    requires IsClient(w, id) && opId !in w.sent && IsClean(path)
    ensures var c, w' := w.clients[id], Committed(w, id, opId, path, scan, clock);
            var req := Upload(c, w.locals[id].records, opId, path, scan);
            var (s, r) := Commit(w.server, c.account, c.space, req, clock);
            w'.server == s && w'.clients == w.clients && w'.locals == w.locals
            && w'.sent == w.sent[opId := Sent(id, CommitMessage(req))]
            && (r.Ok? ==> (opId, r.value) in w'.replies)
  {
    hide CheckCommit, CommitLocked, GrantEmpty, Upload, IsClean;
  }

  /** The world after a deletion was sent and handled. */
  ghost function Deleted(w: World, id: nat, opId: string, path: string, clock: Clock): World {
    Next(Next(w, SendDelete(id, opId, path)), HandleDelete(opId, clock))
  }

  lemma DeletedIs(w: World, id: nat, opId: string, path: string, clock: Clock)
    requires IsClient(w, id) && opId !in w.sent && path in w.locals[id].records
    ensures var c, w' := w.clients[id], Deleted(w, id, opId, path, clock);
            var req := Removal(c, w.locals[id].records, opId, path);
            var (s, r) := Delete(w.server, c.account, c.space, req, clock);
            w'.server == s && w'.clients == w.clients && w'.locals == w.locals
            && w'.sent == w.sent[opId := Sent(id, DeleteMessage(req))]
            && (r.Ok? ==> (opId, r.value) in w'.replies)
  {
  }

  lemma DeletedLeads(w: World, id: nat, opId: string, path: string, clock: Clock)
    ensures Leads(w, Deleted(w, id, opId, path, clock))
  {
    hide Next, Leads;
    var w1 := Next(w, SendDelete(id, opId, path));
    LeadsNext(w, SendDelete(id, opId, path));
    LeadsNext(w1, HandleDelete(opId, clock));
    LeadsOn(w, w1, Next(w1, HandleDelete(opId, clock)));
  }

  /** Sending blocks is a run of chunk uploads. */
  lemma {:induction false} BlocksLead(w: World, account: string, blocks: seq<Bytes>, missing: set<string>)
    ensures Leads(w, w.(server := SendBlocks(w.server, account, blocks, missing)))
  {
    hide Leads, PutChunk, GrantAccountChunk;
    if blocks == [] {
      LeadsNowhere(w);
    } else {
      var front, block := blocks[..|blocks| - 1], blocks[|blocks| - 1];
      var w1 := w.(server := SendBlocks(w.server, account, front, missing));
      BlocksLead(w, account, front, missing);
      if HashBytes(block) in missing {
        var step := UploadChunk(account, HashBytes(block), block);
        LeadsNext(w1, step);
        PutChunkOwn(w1.server, block);
        LeadsOn(w, w1, Next(w1, step));
      }
    }
  }

  lemma PutChunkOwn(s: Server, block: Bytes)
    ensures PutChunk(s, HashBytes(block), block).1.Ok?
  {
  }

  /** An operation id nobody sent was never answered. */
  lemma UnsentIsUnused(w: World, account: string, space: string, opId: string)
    requires WorldOk(w) && opId !in w.sent
    ensures Key(account, space, opId) !in w.server.ops
  {
  }

  /** A commit is never answered without a version. */
  lemma CommitReplyHasVersion(w: World, opId: string, r: CommitResponse)
    requires WorldOk(w) && (opId, r) in w.replies && opId in w.sent && w.sent[opId].message.CommitMessage?
    ensures r.version.Some?
  {
  }

  /** The world once an answer was received and recorded. */
  lemma ReceivedIs(w: World, id: nat, opId: string, r: CommitResponse, time: int)
    requires IsClient(w, id) && opId in w.sent && w.sent[opId].client == id && (opId, r) in w.replies
    ensures var w' := Next(w, Receive(opId, r, time));
            w'.server == w.server && w'.clients == w.clients && w'.sent == w.sent && IsClient(w', id)
            && w'.locals[id].records == Recorded(w.locals[id].records, w.sent[opId].message, r, time)
            && w'.locals[id].cursor == w.locals[id].cursor
  {
  }

  lemma TouchedIs(w: World, id: nat, path: string, modTime: int, time: int)
    requires IsClient(w, id)
    ensures var w' := Next(w, Touch(id, path, modTime, time));
            w'.server == w.server && w'.clients == w.clients && w'.sent == w.sent && IsClient(w', id)
            && w'.locals[id].records == Touched(w.locals[id].records, path, modTime, time)
            && w'.locals[id].cursor == w.locals[id].cursor
  {
  }

  /** The world after the events of a client's inbox were applied. */
  lemma {:induction false} PullLeads(w: World, id: nat, c: Copy, events: seq<Event>, envs: seq<Env>) returns (w': World)
    requires IsClient(w, id) && w.locals[id] == Local(c.records, c.cursor, events)
    ensures var c' := PullEvents(c, w.clients[id].device, w.clients[id].root, events, envs).0;
            Leads(w, w') && w'.sent == w.sent && Stands(w', id, w.clients[id], w.server, c'.records, c'.cursor)
    decreases |events|
  {
    hide Leads, ClientEngine.ApplyVersion, RecordVersion;
    w' := w;
    LeadsNowhere(w);
    if events != [] && envs != [] {
      var client, e := w.clients[id], events[0];
      var (c1, done) := ClientEngine.ApplyVersion(c, client.device, e.version, envs[0]);
      var step := Apply(id, done, envs[0].now);
      var w1 := Next(w, step);
      ApplyRecords(c, client.device, e.version, envs[0]);
      LeadsNext(w, step);
      if OwnEvent(client.device, client.root, e) {
        w' := PullLeads(w1, id, Advance(c, e), events[1..], envs[1..]);
      } else if done {
        w' := PullLeads(w1, id, Advance(c1, e), events[1..], envs[1..]);
      } else {
        w' := w1;
        LeadsNowhere(w1);
      }
      LeadsOn(w, w1, w');
    }
  }

  /** Any way `pullRemote` may end is a run: fetch, then apply event by event. */
  lemma PullEndLeads(w: World, id: nat, c: Copy, envs: seq<Env>, c': Copy, done: bool) returns (w': World)
    requires WorldOk(w) && IsClient(w, id) && w.locals[id].records == c.records && w.locals[id].cursor == c.cursor
    requires var client := w.clients[id];
             PullEnds(c, client.device, client.root, EventsAfter(w.server, client.account, client.space, c.cursor),
                      envs, c', done)
    ensures Leads(w, w') && w'.sent == w.sent && Stands(w', id, w.clients[id], w.server, c'.records, c'.cursor)
  {
    hide Leads, PullEvents, SortBySeq, EventsAfter, WorldOk, RemoveEach;
    var client := w.clients[id];
    var answer := EventsAfter(w.server, client.account, client.space, c.cursor);
    WorldAnswers(w, client.account, client.space, c.cursor);
    SortedStay(answer);
    var w1 := Next(w, Fetch(id));
    LeadsNext(w, Fetch(id));
    w' := PullLeads(w1, id, c, answer, envs);
    LeadsOn(w, w1, w');
  }

  lemma {:induction false} FilteredAscending(events: seq<Event>, account: string, space: string, after: nat)
    requires Ascending(events)
    ensures Ascending(FilterEvents(events, account, space, after))
    ensures forall e | e in FilterEvents(events, account, space, after) :: e in events
  {
    if events != [] {
      var front := events[..|events| - 1];
      FilteredAscending(front, account, space, after);
      var kept := FilterEvents(front, account, space, after);
      forall i | 0 <= i < |kept| ensures kept[i].seqNo <= events[|events| - 1].seqNo { assert kept[i] in front; }
    }
  }

  /** The server answers in order. */
  lemma WorldAnswers(w: World, account: string, space: string, after: nat)
    requires WorldOk(w)
    ensures Ascending(EventsAfter(w.server, account, space, after))
  {
    hide FilterEvents, SentOk, OpsAnswer, RepliesOk, CheckedOk, LocalsOk, HistoriesOk, UniqueVersionIds, FilesOk, LogOk,
         ReplayOk, ContentOk, OpsOk, ChunksOk;
    hide ChunkRefs.Conserved;
    FilteredAscending(w.server.events, account, space, after);
  }

  // ---------------------------------------------------------------- the two loops

  /** All paths of `todo` are visited, one after the other in some order. */
  ghost predicate VisitsAll(c: Client, m: Moment, m': Moment, scan: map<string, Scan>, todo: set<string>,
                            chunkSize: nat)
    requires chunkSize > 0 && todo <= scan.Keys
    decreases |todo|
  {
    if todo == {} then m' == m
    else exists rel, mid | rel in todo ::
      Visited(c, m, mid, rel, scan[rel], chunkSize) && VisitsAll(c, mid, m', scan, todo - {rel}, chunkSize)
  }

  /** For all paths of `todo` a deletion was answered, in some order. */
  ghost predicate RemovesAll(c: Client, m: Moment, m': Moment, todo: set<string>)
    decreases |todo|
  {
    if todo == {} then m' == m
    else exists rel, mid, opId, clock, time | rel in todo ::
      Removed(c, m, mid, rel, opId, clock, time) && RemovesAll(c, mid, m', todo - {rel})
  }

  /** The paths recorded as there that the scan did not find. */
  function GonePaths(records: Records, scan: map<string, Scan>): set<string> {
    set p | p in records && (records[p].state.File? || records[p].state.Dir?) && p !in scan
  }

  lemma VisitsOne(c: Client, m: Moment, mid: Moment, m': Moment, scan: map<string, Scan>, todo: set<string>,
                  rel: string, chunkSize: nat)
    requires chunkSize > 0 && todo <= scan.Keys && rel in todo
    requires Visited(c, m, mid, rel, scan[rel], chunkSize)
    ensures VisitsAll(c, mid, m', scan, todo - {rel}, chunkSize) ==> VisitsAll(c, m, m', scan, todo, chunkSize)
  {
  }

  lemma RemovesOne(c: Client, m: Moment, mid: Moment, m': Moment, todo: set<string>, rel: string, opId: string,
                   clock: Clock, time: int)
    requires rel in todo && Removed(c, m, mid, rel, opId, clock, time)
    ensures RemovesAll(c, mid, m', todo - {rel}) ==> RemovesAll(c, m, m', todo)
  {
  }

  // ---------------------------------------------------------------- scanning

  const STATE_DIR := ".xcloud"

  predicate Scanned(t: Tree, rel: string) { rel in t && !Within(rel, STATE_DIR) }

  function ScanEntry(node: Node, chunkSize: nat, dirTime: int): Scan
    requires chunkSize > 0
  {
    match node
    case DirNode => Scan(Dir, 0, "", [], dirTime)
    case FileNode(data, mtime) => Scan(File, |data|, HashBytes(data), RefsOf(Blocks(data, chunkSize), 0), mtime)
  }

  /** What `scanLocal` finds; the times of directories, which no operation here keeps track of, are given. */
  function ScanOf(t: Tree, chunkSize: nat, dirTimes: map<string, int>): map<string, Scan>
    requires chunkSize > 0
  {
    map p | p in t && Scanned(t, p) :: ScanEntry(t[p], chunkSize, if p in dirTimes then dirTimes[p] else 0)
  }

  /** What a successful `pushLocal` does. */
  ghost predicate Pushed(c: Client, m: Moment, m': Moment, chunkSize: nat)
    requires chunkSize > 0
  {
    exists dirTimes: map<string, int>, mid ::
      var scan := ScanOf(m.tree, chunkSize, dirTimes);
      VisitsAll(c, m, mid, scan, scan.Keys, chunkSize) && RemovesAll(c, mid, m', GonePaths(mid.records, scan))
  }

  // ---------------------------------------------------------------- what was uploaded is synced

  /** The answer to an upload carries the file, at its path or at the conflict path it names. */
  predicate Delivers(r: CommitResponse, path: string, m: Manifest) {
    r.version.Some?
    && var v := r.version.value;
       v.state.File? && v.size == m.size && v.hash == m.hash && (v.path == path || r.conflictPath == v.path != "")
  }

  lemma LandDelivers(s: Server, o: Origin, m: Manifest, key: Key, now: int, conflict: bool, path: string)
    requires key in s.files && (key.name == path || (conflict && key.name != ""))
    ensures Delivers(LandAt(s, o, m, key, File, now, conflict).1.value, path, m)
  {
  }

  lemma EntryDelivers(s: Server, o: Origin, m: Manifest, path: string, clock: Clock)
    ensures var r := CommitEntry(s, o, m, path, File, clock).1;
            r.Ok? ==> Delivers(r.value, path, m)
  {
    hide LandAt, Delivers, CopyKey;
    var key := Key(o.account, o.space, path);
    var s2 := EnsureEntry(s, key);
    var copy := CopyKey(s2, o, path, clock);
    CopyNamed(s2, o, path, clock);
    LandDelivers(NewEntry(s2, copy), o, m, copy, clock.now, true, path);
    LandDelivers(s2, o, m, key, clock.now, false, path);
  }

  lemma CommitDelivers(s: Server, account: string, space: string, req: CommitRequest, clock: Clock)
    requires req.manifest.state.File? && CleanRel(req.manifest.path) == Ok(req.manifest.path)
    requires Key(account, space, req.opId) !in s.ops
    ensures var r := Commit(s, account, space, req, clock).1;
            r.Ok? ==> Delivers(r.value, req.manifest.path, req.manifest)
  {
    hide CommitEntry, EnsureParents, Verify, Delivers, CleanRel, Ancestors;
    var o := RequestOrigin(account, space, req.device, req.root);
    var m, path := req.manifest, req.manifest.path;
    var checked := CheckCommit(s, account, space, req);
    if checked.Ok? {
      assert checked.value == Plan(path, File);
      var s0 := GrantEmpty(s, account, m, checked.value);
      var s1 := EnsureParents(s0, o, Ancestors(path), m.modTime, clock);
      EnsureParentsSides(s0, o, Ancestors(path), m.modTime, clock);
      EntryDelivers(s1, o, m, path, clock);
    }
  }

  lemma CopyNamed(s: Server, o: Origin, path: string, clock: Clock)
    ensures CopyKey(s, o, path, clock).name != ""
  {
  }

  /** What was uploaded is where its record says, and its record says what it is. */
  lemma UploadedIsSynced(c: Client, m: Moment, m': Moment, rel: string, entry: Scan, chunkSize: nat, opId: string,
                         clock: Clock, time: int, data: Bytes)
    requires chunkSize > 0 && FileSent(c, m, m', rel, entry, chunkSize, opId, clock, time)
    requires entry.state.File? && entry.hash == HashBytes(data) && entry.size == |data| && Holds(m.tree, rel, data)
    requires IsClean(rel)
    ensures exists p :: Holds(m'.tree, p, data) && Synced(Known(m'.records, p), data)
  {
    hide Commit, IsClean, CleanRel, SendBlocks;
    var s1 := ChunksSent(m.server, c.account, ContentAt(m.tree, rel), chunkSize, entry);
    SendKeepsOps(m.server, c.account, Blocks(ContentAt(m.tree, rel), chunkSize), MissingOf(m.server, c.account, entry));
    var req := Upload(c, m.records, opId, rel, entry);
    CleanRelFixpoint(rel);
    CommitDelivers(s1, c.account, c.space, req, clock);
    var r := Commit(s1, c.account, c.space, req, clock).1.value;
    var v := r.version.value;
    FollowedCopy(m.tree, rel, r, data);
    assert Holds(m'.tree, v.path, data) && Synced(Known(m'.records, v.path), data);
  }

  lemma FollowedCopy(t: Tree, rel: string, r: CommitResponse, data: Bytes)
    requires Holds(t, rel, data) && r.version.Some?
             && (r.version.value.path == rel || r.conflictPath == r.version.value.path != "")
    requires FollowCopy(t, rel, r).1
    ensures Holds(FollowCopy(t, rel, r).0, r.version.value.path, data)
  {
    hide MoveTree, MakeDirs;
    var to := r.version.value.path;
    if to != rel {
      var t1 := EnsureParent(t, to).0;
      MakeDirsKeeps(t, Above(to), rel, data);
      MovedAt(t1, rel, to, to);
      assert Back(to, rel, to) == rel;
    }
  }

  lemma {:induction false} SendKeepsOps(s: Server, account: string, blocks: seq<Bytes>, missing: set<string>)
    ensures SendBlocks(s, account, blocks, missing).ops == s.ops
  {
    if blocks != [] { SendKeepsOps(s, account, blocks[..|blocks| - 1], missing); }
  }
}
