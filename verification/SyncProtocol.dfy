/** One server and any number of clients as a transition system: every request, answer, fetch and record update
    is its own step, steps interleave freely, requests may be lost, delayed and delivered again.
    `Next` is total: a step that is not enabled changes nothing, so a run is any list of steps. */
module SyncProtocol {
  import opened Model
  import opened Paths
  import opened StoreSpec
  import opened ClientRecords

  /** Who a client is; this never changes. */
  datatype Client = Client(account: string, space: string, device: string, root: string)

  function PathKey(c: Client, p: string): Key { Key(c.account, c.space, p) }

  /** What the server writes into the client's versions. */
  function OriginOf(c: Client): Origin { RequestOrigin(c.account, c.space, c.device, c.root) }

  /** What it holds: its records and cursor, and the events it fetched but has not applied. */
  datatype Local = Local(records: map<string, LocalFileState>, cursor: nat, inbox: seq<Event>)

  datatype Message = CommitMessage(commit: CommitRequest) | DeleteMessage(delete: DeleteRequest)

  datatype Sent = Sent(client: nat, message: Message)

  /** `checked`: commits that passed the checks before the lock, with what the checks found.
      `replies`: answers on their way, kept forever since an answer may arrive late or never. */
  datatype World = World(server: Server, clients: map<nat, Client>, locals: map<nat, Local>,
                         sent: map<string, Sent>, checked: set<(string, Plan)>,
                         replies: set<(string, CommitResponse)>)

  /** What a scan found at a path. */
  datatype Scan = Scan(state: EntryState, size: int, hash: string, chunks: seq<ChunkRef>, modTime: int)

  datatype Step =
    | SendCommit(client: nat, opId: string, path: string, scan: Scan)
    | SendDelete(client: nat, opId: string, path: string)
    | CheckSent(opId: string)
    | HandleCommit(opId: string, plan: Plan, clock: Clock)
    | HandleDelete(opId: string, clock: Clock)
    | Receive(opId: string, response: CommitResponse, time: int)
    | Fetch(client: nat)
    | Apply(client: nat, done: bool, time: int)
    | Touch(client: nat, path: string, modTime: int, time: int)
    | RestoreFile(account: string, restore: RestoreRequest, actor: string, clock: Clock)
    | PruneTrash(time: int)
    | UploadChunk(account: string, hash: string, data: Bytes)
    | SetSpace(account: string, space: string, active: bool)

  function Upload(c: Client, records: map<string, LocalFileState>, opId: string, path: string,
                  scan: Scan): CommitRequest {
    var known := Known(records, path);
    CommitRequest(opId, c.device, c.root,
                  Manifest(known.fileId, path, known.versionId, scan.state, scan.size, scan.hash, scan.chunks,
                           scan.modTime))
  }

  function Removal(c: Client, records: map<string, LocalFileState>, opId: string, path: string): DeleteRequest {
    var known := Known(records, path);
    DeleteRequest(opId, c.device, c.root, path, known.fileId, known.versionId)
  }

  function WithReply(w: World, server: Server, opId: string, r: Result<CommitResponse>): World {
    w.(server := server, replies := if r.Ok? then w.replies + {(opId, r.value)} else w.replies)
  }

  predicate IsSentCommit(w: World, opId: string) {
    opId in w.sent && w.sent[opId].message.CommitMessage? && w.sent[opId].client in w.clients
  }

  predicate IsSentDelete(w: World, opId: string) {
    opId in w.sent && w.sent[opId].message.DeleteMessage? && w.sent[opId].client in w.clients
  }

  /** The client records an answer (`uploadFile`, `uploadDir` and the delete loop of `pushLocal`). */
  function Recorded(records: map<string, LocalFileState>, message: Message, r: CommitResponse, time: int)
    : map<string, LocalFileState>
  {
    match message
    case CommitMessage(req) =>
      if r.version.None? then records
      else
        var v := r.version.value;
        var moved := req.manifest.state.File? && v.path != req.manifest.path && r.conflictPath != "";
        (if moved then records - {req.manifest.path} else records)[v.path := StateFromVersion(v, time)]
    case DeleteMessage(req) =>
      if r.status.StatusOk? && r.version.Some? then
        records[req.path := DeletedRecord(req.path, req.fileId, r.version.value.versionId,
                                          Known(records, req.path).state, time)]
      else records
  }

  /** One event of a pull: own events only move the cursor, a failure ends the pull. */
  function Applied(c: Client, l: Local, done: bool, time: int): Local {
    if l.inbox == [] then l
    else
      var e := l.inbox[0];
      if e.version.device == c.device && e.version.root == c.root then
        l.(cursor := Max(l.cursor, e.seqNo), inbox := l.inbox[1..])
      else if !done then l.(inbox := [])
      else l.(records := RecordVersion(l.records, e.version, time), cursor := Max(l.cursor, e.seqNo),
              inbox := l.inbox[1..])
  }

  /** A scan found the recorded content under a new modification time. */
  function Touched(records: map<string, LocalFileState>, path: string, modTime: int, time: int)
    : map<string, LocalFileState>
  {
    if path in records then records[path := records[path].(modTime := modTime, updatedAt := time)] else records
  }

  predicate IsClient(w: World, id: nat) { id in w.clients && id in w.locals }

  function Next(w: World, step: Step): World {
    match step
    case SendCommit(id, opId, path, scan) =>
      if IsClient(w, id) && opId !in w.sent && IsClean(path) then
        var m := CommitMessage(Upload(w.clients[id], w.locals[id].records, opId, path, scan));
        w.(sent := w.sent[opId := Sent(id, m)])
      else w
    case SendDelete(id, opId, path) =>
      if IsClient(w, id) && opId !in w.sent && path in w.locals[id].records then
        var m := DeleteMessage(Removal(w.clients[id], w.locals[id].records, opId, path));
        w.(sent := w.sent[opId := Sent(id, m)])
      else w
    case CheckSent(opId) =>
      if IsSentCommit(w, opId) then
        var c := w.clients[w.sent[opId].client];
        var req := w.sent[opId].message.commit;
        match CheckCommit(w.server, c.account, c.space, req) {
          case Err(_) => w
          case Ok(plan) =>
            w.(server := GrantEmpty(w.server, c.account, req.manifest, plan), checked := w.checked + {(opId, plan)})
        }
      else w
    case HandleCommit(opId, plan, clock) =>
      if IsSentCommit(w, opId) && (opId, plan) in w.checked then
        var c := w.clients[w.sent[opId].client];
        var (s, r) := CommitLocked(w.server, c.account, c.space, w.sent[opId].message.commit, plan, clock);
        WithReply(w, s, opId, r)
      else w
    case HandleDelete(opId, clock) =>
      if IsSentDelete(w, opId) then
        var c := w.clients[w.sent[opId].client];
        var (s, r) := Delete(w.server, c.account, c.space, w.sent[opId].message.delete, clock);
        WithReply(w, s, opId, r)
      else w
    case Receive(opId, response, time) =>
      if opId in w.sent && w.sent[opId].client in w.locals && (opId, response) in w.replies then
        var l := w.locals[w.sent[opId].client];
        var records := Recorded(l.records, w.sent[opId].message, response, time);
        w.(locals := w.locals[w.sent[opId].client := l.(records := records)])
      else w
    case Fetch(id) =>
      if IsClient(w, id) then
        var c, l := w.clients[id], w.locals[id];
        w.(locals := w.locals[id := l.(inbox := EventsAfter(w.server, c.account, c.space, l.cursor))])
      else w
    case Apply(id, done, time) =>
      if IsClient(w, id) then w.(locals := w.locals[id := Applied(w.clients[id], w.locals[id], done, time)]) else w
    case Touch(id, path, modTime, time) =>
      if IsClient(w, id) then
        w.(locals := w.locals[id := w.locals[id].(records := Touched(w.locals[id].records, path, modTime, time))])
      else w
    case RestoreFile(account, req, actor, clock) => w.(server := Restore(w.server, account, req, actor, clock).0)
    case PruneTrash(time) => w.(server := Prune(w.server, time))
    case UploadChunk(account, hash, data) =>
      var (s, r) := PutChunk(w.server, hash, data);
      if r.Ok? then w.(server := GrantAccountChunk(s, account, hash).0) else w
    case SetSpace(account, space, active) =>
      w.(server := w.server.(spaces := w.server.spaces[(account, space) := active]))
  }

  function Run(w: World, steps: seq<Step>): World
    decreases |steps|
  {
    if steps == [] then w else Run(Next(w, steps[0]), steps[1..])
  }

  /** A server that holds nothing, and clients that know nothing. */
  ghost predicate Initial(w: World) {
    w.server == EMPTY && w.sent == map[] && w.checked == {} && w.replies == {}
    && forall id | id in w.locals :: id in w.clients && w.locals[id].records == map[] && w.locals[id].inbox == []
  }
}
