/** What the server's locked methods (internal/server/store.go) compute, as functions on its tables.
    `Store` carries them out on mutable fields; the lemmas of the later modules are about these functions. */
module StoreSpec {
  import opened Model
  import opened Paths
  import opened ConflictNames
  import opened Text

  /** The tables of `ServerState`, the chunk files on disk, and two history variables the code does not
      keep: `log`, every event ever appended, and `restored`, the versions made by `RestoreTrash`. */
  datatype Server = Server(
    spaces: map<(string, string), bool>,
    files: map<Key, FileEntry>,
    versions: map<Id, seq<FileVersion>>,
    ops: map<Key, CommitResponse>,
    refs: map<string, nat>,
    grants: set<(string, string)>,
    chunks: map<string, Bytes>,
    events: seq<Event>,
    lastSeq: nat,
    nextId: nat,
    log: seq<Event>,
    restored: set<Id>)

  const EMPTY := Server(map[], map[], map[], map[], map[], {}, map[], [], 0, 0, [], {})

  /** One reading of the clock: the Unix time and its text in a conflict name. */
  datatype Clock = Clock(now: int, stamp: Stamp)

  function KeyOf(v: FileVersion): Key { Key(v.account, v.space, v.path) }

  function History(versions: map<Id, seq<FileVersion>>, id: Id): seq<FileVersion> {
    if id in versions then versions[id] else []
  }

  predicate SpaceActive(s: Server, account: string, space: string) {
    (account, space) in s.spaces && s.spaces[(account, space)]
  }

  // ---------------------------------------------------------------- chunks

  predicate HasChunk(chunks: map<string, Bytes>, hash: string) { IsHash(hash) && hash in chunks }

  predicate HasAccountChunk(s: Server, account: string, hash: string) {
    HasChunk(s.chunks, hash) && (account, hash) in s.grants
  }

  function PutChunk(s: Server, hash: string, data: Bytes): (Server, Result<bool>) {
    if HashBytes(data) != hash then (s, Err("chunk hash mismatch"))
    else if hash in s.chunks then (s, Ok(true))
    else (s.(chunks := s.chunks[hash := data]), Ok(true))
  }

  function GrantAccountChunk(s: Server, account: string, hash: string): (Server, Result<bool>) {
    if !HasChunk(s.chunks, hash) then (s, Err("missing chunk"))
    else (s.(grants := s.grants + {(account, hash)}), Ok(true))
  }

  function CheckChunks(s: Server, account: string, hashes: seq<string>): seq<string> {
    if hashes == [] then []
    else (if HasAccountChunk(s, account, hashes[0]) then [] else [hashes[0]])
         + CheckChunks(s, account, hashes[1..])
  }

  /** The loop of `verifyManifest` from chunk `i` on, `data` being what was read so far. */
  function VerifyFrom(s: Server, account: string, m: Manifest, i: nat, data: Bytes): Result<bool>
    requires i <= |m.chunks|
    decreases |m.chunks| - i
  {
    if i == |m.chunks| then
      if |data| != m.size then Err("file size mismatch")
      else if HashBytes(data) != m.hash then Err("file hash mismatch")
      else Ok(true)
    else
      var chunk := m.chunks[i];
      if chunk.index != i then Err("chunk index out of order")
      else if !IsHash(chunk.hash) then Err("invalid chunk hash")
      else if !HasAccountChunk(s, account, chunk.hash) then Err("chunk is not available to this account")
      else if |s.chunks[chunk.hash]| != chunk.size then Err("chunk size mismatch")
      else VerifyFrom(s, account, m, i + 1, data + s.chunks[chunk.hash])
  }

  function Verify(s: Server, account: string, m: Manifest): Result<bool> {
    if |m.chunks| == 0 then
      if m.size != 0 then Err("empty chunk list with non-zero size")
      else if m.hash != HashBytes([]) then Err("empty file hash mismatch")
      else Ok(true)
    else VerifyFrom(s, account, m, 0, [])
  }

  // ---------------------------------------------------------------- versions and events

  /** The newest events, as many as are kept. */
  function KeptPart(all: seq<Event>): seq<Event> {
    if |all| > MAX_EVENTS then all[|all| - MAX_EVENTS..] else all
  }

  function AppendEvent(s: Server, v: FileVersion): Server {
    var e := Event(s.lastSeq + 1, v);
    s.(lastSeq := s.lastSeq + 1, log := s.log + [e], events := KeptPart(s.events + [e]))
  }

  function BlankEntry(key: Key, id: Id): FileEntry {
    FileEntry(key.account, key.space, id, key.name, None, false, NoId, 0)
  }

  function NewEntry(s: Server, key: Key): Server {
    s.(files := s.files[key := BlankEntry(key, Issued(s.nextId))], nextId := s.nextId + 1)
  }

  function AddRefs(refs: map<string, nat>, chunks: seq<ChunkRef>): map<string, nat>
    decreases |chunks|
  {
    if chunks == [] then refs
    else
      var h := chunks[0].hash;
      AddRefs(refs[h := (if h in refs then refs[h] else 0) + 1], chunks[1..])
  }

  function ChunkGrants(account: string, chunks: seq<ChunkRef>): set<(string, string)> {
    set i | 0 <= i < |chunks| :: (account, chunks[i].hash)
  }

  function WithCurrent(e: FileEntry, v: FileVersion): FileEntry {
    e.(current := Some(v), deleted := v.state.Deleted?, latest := v.versionId, updatedAt := v.createdAt)
  }

  /** Make `v`, whose id is the next one, the current version of the entry at `key`. */
  function Install(s: Server, key: Key, v: FileVersion): Server
    requires key in s.files
  {
    AppendEvent(
      s.(files := s.files[key := WithCurrent(s.files[key], v)],
         versions := s.versions[v.fileId := History(s.versions, v.fileId) + [v]],
         nextId := s.nextId + 1),
      v)
  }

  /** The chunk bookkeeping `commitEntryLocked` adds for a file. */
  function CountChunks(s: Server, v: FileVersion): Server {
    if v.state.File? then
      s.(refs := AddRefs(s.refs, v.chunks), grants := s.grants + ChunkGrants(v.account, v.chunks))
    else s
  }

  // ---------------------------------------------------------------- commit

  predicate LiveDir(e: FileEntry) { e.current.Some? && e.current.value.state.Dir? && !e.deleted }

  predicate IsLiveDir(files: map<Key, FileEntry>, key: Key) { key in files && LiveDir(files[key]) }

  function UsedPaths(files: map<Key, FileEntry>): set<string> { set k | k in files :: files[k].path }

  /** The origin columns of a request. */
  datatype Origin = Origin(account: string, space: string, device: string, root: string)

  function CommittedVersion(o: Origin, m: Manifest, key: Key, fileId: Id, versionId: Id, state: EntryState,
                            now: int): FileVersion {
    FileVersion(o.account, o.space, fileId, key.name, versionId, m.base, state, Unset, m.size, m.hash,
                m.chunks, m.modTime, 0, o.device, o.root, now)
  }

  /** The end of `commitEntryLocked`: record the manifest as the new version of the entry at `key`. */
  function Land(s: Server, o: Origin, m: Manifest, key: Key, state: EntryState, now: int): Server
    requires key in s.files
  {
    var v := CommittedVersion(o, m, key, s.files[key].fileId, Issued(s.nextId), state, now);
    CountChunks(Install(s, key, v), v)
  }

  function LandResponse(s: Server, key: Key, conflict: bool): CommitResponse
    requires key in s.files
  {
    CommitResponse(StatusOk, s.files[key], s.files[key].current, conflict,
                   if conflict then key.name else "", None)
  }

  /** The entry at `key`, created blank when there is none. */
  function EnsureEntry(s: Server, key: Key): Server {
    if key in s.files then s else NewEntry(s, key)
  }

  function CopyKey(s: Server, o: Origin, path: string, clock: Clock): Key {
    Key(o.account, o.space, NextConflictPath(UsedPaths(s.files), path, o.device, clock.stamp))
  }

  /** How a manifest meets the entry at its path. */
  datatype Outcome = Refused | Unchanged | Diverted | Appended

  function OutcomeOf(e: FileEntry, m: Manifest, state: EntryState): Outcome {
    if m.fileId != NoId && e.fileId != m.fileId then Refused
    else if state.Dir? && LiveDir(e) then Unchanged
    else if e.current.Some? && m.base != e.current.value.versionId then Diverted
    else Appended
  }

  function LandAt(s: Server, o: Origin, m: Manifest, key: Key, state: EntryState, now: int, conflict: bool)
    : (Server, Result<CommitResponse>)
    requires key in s.files
  {
    var s' := Land(s, o, m, key, state, now);
    (s', Ok(LandResponse(s', key, conflict)))
  }

  /** `commitEntryLocked` once the entry exists. */
  function CommitExisting(s: Server, o: Origin, m: Manifest, key: Key, state: EntryState, clock: Clock)
    : (Server, Result<CommitResponse>)
    requires key in s.files
  {
    match OutcomeOf(s.files[key], m, state)
    case Refused => (s, Err("file_id mismatch"))
    case Unchanged => (s, Ok(LandResponse(s, key, false)))
    case Diverted =>
      var copy := CopyKey(s, o, key.name, clock);
      LandAt(NewEntry(s, copy), o, m, copy, state, clock.now, true)
    case Appended => LandAt(s, o, m, key, state, clock.now, false)
  }

  function CommitEntry(s: Server, o: Origin, m: Manifest, path: string, state: EntryState, clock: Clock)
    : (Server, Result<CommitResponse>)
  {
    var key := Key(o.account, o.space, path);
    CommitExisting(EnsureEntry(s, key), o, m, key, state, clock)
  }

  function DirManifest(path: string, modTime: int): Manifest {
    Manifest(NoId, path, NoId, Dir, 0, "", [], modTime)
  }

  /** `ensureParentDirsLocked` over the given ancestors, outermost first. */
  function EnsureParents(s: Server, o: Origin, dirs: seq<string>, modTime: int, clock: Clock): Server
    decreases |dirs|
  {
    if dirs == [] then s
    else if IsLiveDir(s.files, Key(o.account, o.space, dirs[0])) then
      EnsureParents(s, o, dirs[1..], modTime, clock)
    else
      EnsureParents(CommitEntry(s, o, DirManifest(dirs[0], modTime), dirs[0], Dir, clock).0,
                    o, dirs[1..], modTime, clock)
  }

  /** What `Commit` establishes before it takes the lock for good. */
  datatype Plan = Plan(path: string, state: EntryState)

  function CheckCommit(s: Server, account: string, space: string, req: CommitRequest): Result<Plan> {
    var m := req.manifest;
    var state := if m.state.Unset? then File else m.state;
    if req.opId == "" then Err("operation_id is required")
    else if req.device == "" then Err("device_id is required")
    else if m.path == "" then Err("manifest path is required")
    else if !state.File? && !state.Dir? then Err("invalid manifest state")
    else if state.File? && m.hash == "" then Err("manifest hash is required")
    else if state.File? && !IsHash(m.hash) then Err("invalid file hash")
    else if !SpaceActive(s, account, space) then Err("sync space not found")
    else match CleanRel(m.path) {
      case Err(e) => Err(e)
      case Ok(path) =>
        if state.File? then
          match Verify(s, account, m) { case Err(e) => Err(e) case Ok(_) => Ok(Plan(path, state)) }
        else if m.hash != "" || m.size != 0 || |m.chunks| != 0 then
          Err("directory manifest cannot include file content")
        else Ok(Plan(path, state))
    }
  }

  /** `verifyManifest` grants the digest of the empty file without a stored chunk. */
  function GrantEmpty(s: Server, account: string, m: Manifest, plan: Plan): Server {
    if plan.state.File? && |m.chunks| == 0 then s.(grants := s.grants + {(account, m.hash)}) else s
  }

  function RequestOrigin(account: string, space: string, device: string, root: string): Origin {
    Origin(account, space, device, TrimSpace(root))
  }

  /** The part of `Commit` under the lock. */
  function CommitLocked(s: Server, account: string, space: string, req: CommitRequest, plan: Plan, clock: Clock)
    : (Server, Result<CommitResponse>)
  {
    var o := RequestOrigin(account, space, req.device, req.root);
    var s1 := EnsureParents(s, o, Ancestors(plan.path), req.manifest.modTime, clock);
    var opKey := Key(account, space, req.opId);
    if opKey in s1.ops then (s1, Ok(s1.ops[opKey]))
    else
      var (s2, r) := CommitEntry(s1, o, req.manifest, plan.path, plan.state, clock);
      (if r.Ok? then s2.(ops := s2.ops[opKey := r.value]) else s2, r)
  }

  /** `Commit` with nothing happening between its two halves. */
  function Commit(s: Server, account: string, space: string, req: CommitRequest, clock: Clock)
    : (Server, Result<CommitResponse>)
  {
    match CheckCommit(s, account, space, req)
    case Err(e) => (s, Err(e))
    case Ok(plan) => CommitLocked(GrantEmpty(s, account, req.manifest, plan), account, space, req, plan, clock)
  }

  // ---------------------------------------------------------------- delete

  /** The tombstone `Delete` appends: a file's content columns are kept, a directory's are cleared. */
  function Tombstone(o: Origin, key: Key, e: FileEntry, base: Id, versionId: Id, now: int): FileVersion {
    var blank := FileVersion(o.account, o.space, e.fileId, key.name, versionId, base, Deleted, Unset, 0, "", [],
                             0, now, o.device, o.root, now);
    match e.current
    case None => blank
    case Some(p) =>
      if p.state.Dir? then blank.(deletedState := p.state)
      else blank.(deletedState := p.state, size := p.size, hash := p.hash, chunks := p.chunks, modTime := p.modTime)
  }

  function Delete(s: Server, account: string, space: string, req: DeleteRequest, clock: Clock)
    : (Server, Result<CommitResponse>)
  {
    var opKey := Key(account, space, req.opId);
    if req.opId == "" then (s, Err("operation_id is required"))
    else if req.device == "" then (s, Err("device_id is required"))
    else if req.path == "" then (s, Err("path is required"))
    else if !SpaceActive(s, account, space) then (s, Err("sync space not found"))
    else if opKey in s.ops then (s, Ok(s.ops[opKey]))
    else match CleanRel(req.path) {
      case Err(e) => (s, Err(e))
      case Ok(path) =>
        var key := Key(account, space, path);
        if key !in s.files then (s, Err("path not found"))
        else
          var e := s.files[key];
          if req.fileId != NoId && req.fileId != e.fileId then (s, Err("file_id mismatch"))
          else if e.current.Some? && req.base != e.current.value.versionId then
            var resp := CommitResponse(StatusConflict, e, None, true, "", e.current);
            (s.(ops := s.ops[opKey := resp]), Ok(resp))
          else if e.current.Some? && e.current.value.state.Deleted? then
            var resp := LandResponse(s, key, false);
            (s.(ops := s.ops[opKey := resp]), Ok(resp))
          else
            var o := RequestOrigin(account, space, req.device, req.root);
            var s1 := Install(s, key, Tombstone(o, key, e, req.base, Issued(s.nextId), clock.now));
            var resp := LandResponse(s1, key, false);
            (s1.(ops := s1.ops[opKey := resp]), Ok(resp))
    }
  }

  // ---------------------------------------------------------------- trash

  predicate InTrash(e: FileEntry) { e.deleted && e.current.Some? && e.current.value.state.Deleted? }

  predicate Expired(e: FileEntry, now: int) {
    InTrash(e) && e.current.value.deletedAt > 0 && e.current.value.deletedAt + TRASH_RETENTION_SECONDS <= now
  }

  function Prune(s: Server, now: int): Server {
    s.(files := map k | k in s.files && !Expired(s.files[k], now) :: s.files[k])
  }

  /** The backward search of `RestoreTrash` for the newest file version among the first `n`. */
  function NewestFile(h: seq<FileVersion>, n: nat): (r: Option<FileVersion>)
    requires n <= |h|
  {
    if n == 0 then None
    else if h[n - 1].state.File? then Some(h[n - 1])
    else NewestFile(h, n - 1)
  }

  /** The version whose content is restored; the second branch copies the tombstone's own columns. */
  function RestoreSource(h: seq<FileVersion>, tombstone: FileVersion): Option<FileVersion> {
    match NewestFile(h, |h|)
    case Some(v) => Some(v)
    case None => if tombstone.hash != "" then Some(tombstone.(state := File)) else None
  }

  function RestoreDevice(actor: string): string {
    if TrimSpace(actor) == "" then "admin"
    else
      var name := TrimDashes(SafeDevice(actor));
      "admin-" + if name == "" then "admin" else name
  }

  function RestoreSpace(req: RestoreRequest): string {
    if TrimSpace(req.space) == "" then "default" else TrimSpace(req.space)
  }

  function RestoredVersion(account: string, space: string, key: Key, e: FileEntry, source: FileVersion, base: Id,
                           versionId: Id, device: string, now: int): FileVersion {
    FileVersion(account, space, e.fileId, key.name, versionId, base, File, Unset, source.size, source.hash,
                source.chunks, now, 0, device, CLOUD_TRASH_ROOT, now)
  }

  function Restore(s: Server, account: string, req: RestoreRequest, actor: string, clock: Clock)
    : (Server, Result<CommitResponse>)
  {
    var space := RestoreSpace(req);
    if !SpaceActive(s, account, space) then (s, Err("sync space not found"))
    else match CleanRel(req.path) {
      case Err(e) => (s, Err(e))
      case Ok(path) =>
        if req.fileId == NoId then (s, Err("file_id is required"))
        else
          var s1 := Prune(s, clock.now);
          var key := Key(account, space, path);
          if key !in s1.files || s1.files[key].fileId != req.fileId || !InTrash(s1.files[key]) then
            (s1, Err("trash entry not found"))
          else
            var e := s1.files[key];
            var tombstone := e.current.value;
            if tombstone.deletedAt + TRASH_RETENTION_SECONDS <= clock.now then
              (s1, Err("trash entry has expired"))
            else
              match RestoreSource(History(s1.versions, req.fileId), tombstone)
              case None => (s1, Err("restorable version not found"))
              case Some(source) =>
                var v := RestoredVersion(account, space, key, e, source, tombstone.versionId,
                                         Issued(s1.nextId), RestoreDevice(actor), clock.now);
                var s2 := Install(s1, key, v).(restored := s1.restored + {v.versionId});
                (s2, Ok(LandResponse(s2, key, false)))
    }
  }

  // ---------------------------------------------------------------- events

  function FilterEvents(events: seq<Event>, account: string, space: string, after: nat): seq<Event> {
    if events == [] then []
    else
      var rest := FilterEvents(events[..|events| - 1], account, space, after);
      var e := events[|events| - 1];
      if e.version.account == account && e.version.space == space && e.seqNo > after then rest + [e] else rest
  }

  function EventsAfter(s: Server, account: string, space: string, after: nat): seq<Event> {
    FilterEvents(s.events, account, space, after)
  }
}
