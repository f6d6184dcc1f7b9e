/** The invariant of the server's tables, and its preservation by every locked method. */
module StoreInvariant {
  import opened Model
  import opened Paths
  import opened StoreSpec

  // ---------------------------------------------------------------- content

  function ChunkBytes(chunks: map<string, Bytes>, hash: string): Bytes {
    if hash in chunks then chunks[hash] else []
  }

  /** The bytes a chunk list stands for. */
  function Assemble(chunks: map<string, Bytes>, refs: seq<ChunkRef>): Bytes {
    if refs == [] then []
    else Assemble(chunks, refs[..|refs| - 1]) + ChunkBytes(chunks, refs[|refs| - 1].hash)
  }

  ghost predicate Stored(chunks: map<string, Bytes>, refs: seq<ChunkRef>) {
    forall i | 0 <= i < |refs| ::
      IsHash(refs[i].hash) && refs[i].hash in chunks && |chunks[refs[i].hash]| == refs[i].size
  }

  /** The chunks are on disk and join to content of the given digest and size. */
  ghost predicate Joinable(chunks: map<string, Bytes>, refs: seq<ChunkRef>, hash: string, size: int) {
    Stored(chunks, refs)
    && HashBytes(Assemble(chunks, refs)) == hash
    && |Assemble(chunks, refs)| == size
  }

  /** Chunk files appear and never change. */
  ghost predicate ChunksGrow(c: map<string, Bytes>, c': map<string, Bytes>) {
    forall h | h in c :: h in c' && c'[h] == c[h]
  }

  lemma {:induction false} AssembleStable(c: map<string, Bytes>, c': map<string, Bytes>, refs: seq<ChunkRef>)
    requires Stored(c, refs) && ChunksGrow(c, c')
    ensures Stored(c', refs) && Assemble(c', refs) == Assemble(c, refs)
  {
    if refs != [] {
      assert forall i | 0 <= i < |refs| - 1 :: refs[..|refs| - 1][i] == refs[i];
      AssembleStable(c, c', refs[..|refs| - 1]);
    }
  }

  // ---------------------------------------------------------------- the invariant, part by part

  /** What the first version of a history looks like. */
  ghost predicate Starts(v: FileVersion) {
    v.state.Deleted? ==> v.deletedState.Unset? && v.hash == "" && v.chunks == []
  }

  /** `v` was appended right after `p`. */
  ghost predicate Follows(p: FileVersion, v: FileVersion) {
    v.base == p.versionId
    && (v.state.Deleted? ==>
          !p.state.Deleted? && v.deletedState == p.state
          && (p.state.File? ==> v.hash == p.hash && v.size == p.size && v.chunks == p.chunks)
          && (p.state.Dir? ==> v.hash == "" && v.size == 0 && v.chunks == []))
  }

  ghost predicate VersionOk(id: Id, first: FileVersion, v: FileVersion, bound: nat) {
    v.fileId == id && KeyOf(v) == KeyOf(first) && IsClean(v.path)
    && v.versionId.Issued? && v.versionId.n < bound
    && (v.state.File? || v.state.Dir? || v.state.Deleted?)
  }

  ghost predicate HistoryOk(id: Id, h: seq<FileVersion>, bound: nat) {
    |h| > 0 && id.Issued? && id.n < bound
    && (forall i | 0 <= i < |h| :: VersionOk(id, h[0], h[i], bound))
    && Starts(h[0])
    && (forall i | 0 < i < |h| :: Follows(h[i - 1], h[i]))
  }

  /** Every history is linear. */
  ghost predicate HistoriesOk(versions: map<Id, seq<FileVersion>>, bound: nat) {
    forall id | id in versions :: HistoryOk(id, versions[id], bound)
  }

  ghost predicate UniqueVersionIds(versions: map<Id, seq<FileVersion>>) {
    forall id, i, id', i' | id in versions && 0 <= i < |versions[id]| && id' in versions && 0 <= i' < |versions[id']|
                            && versions[id][i].versionId == versions[id'][i'].versionId :: id == id' && i == i'
  }

  ghost predicate EntryOk(versions: map<Id, seq<FileVersion>>, key: Key, e: FileEntry, bound: nat) {
    key == Key(e.account, e.space, e.path) && IsClean(e.path) && e.fileId.Issued? && e.fileId.n < bound
    && match e.current {
         case None => e.fileId !in versions && !e.deleted && e.latest == NoId
         case Some(v) =>
           e.fileId in versions && |versions[e.fileId]| > 0
           && versions[e.fileId][|versions[e.fileId]| - 1] == v
           && KeyOf(v) == key && e.latest == v.versionId && (e.deleted <==> v.state.Deleted?)
       }
  }

  ghost predicate FilesOk(files: map<Key, FileEntry>, versions: map<Id, seq<FileVersion>>, bound: nat) {
    forall k | k in files :: EntryOk(versions, k, files[k], bound)
  }

  ghost predicate DistinctFileIds(files: map<Key, FileEntry>) {
    forall k, k' | k in files && k' in files && files[k].fileId == files[k'].fileId :: k == k'
  }

  ghost predicate InHistory(versions: map<Id, seq<FileVersion>>, v: FileVersion) {
    v.fileId in versions && v in versions[v.fileId]
  }

  /** A tombstone follows the last event of its path, or comes to a path without a version. */
  ghost predicate TombstoneFits(last: Option<FileVersion>, v: FileVersion) {
    v.state.Deleted? ==>
      if last.Some? && !last.value.state.Deleted? then Follows(last.value, v) else v.deletedState.Unset?
  }

  /** Each event brings a version of its own, and tombstones are in their places. */
  ghost predicate LogLinear(log: seq<Event>) {
    (forall i, j | 0 <= i < j < |log| :: DifferentVersions(log, i, j)) && forall i | 0 <= i < |log| :: EventFits(log, i)
  }

  predicate DifferentVersions(log: seq<Event>, i: nat, j: nat)
    requires i < |log| && j < |log|
  {
    log[i].version.versionId != log[j].version.versionId
  }

  ghost predicate EventFits(log: seq<Event>, i: nat)
    requires i < |log|
  {
    TombstoneFits(LastAt(log[..i], KeyOf(log[i].version)), log[i].version)
  }

  ghost predicate LogOk(log: seq<Event>, versions: map<Id, seq<FileVersion>>) {
    (forall i | 0 <= i < |log| :: InHistory(versions, log[i].version)) && LogLinear(log)
  }

  /** The kept events are the newest ones of the whole log, whose sequence numbers are 1, 2, 3, ... */
  ghost predicate WindowOk(log: seq<Event>, events: seq<Event>, lastSeq: nat) {
    |log| == lastSeq
    && (forall i | 0 <= i < |log| :: log[i].seqNo == i + 1)
    && IsNewestPart(events, log)
  }

  predicate IsNewestPart(events: seq<Event>, log: seq<Event>) {
    |events| == (if |log| <= MAX_EVENTS then |log| else MAX_EVENTS) && events == log[|log| - |events|..]
  }

  function Play(m: map<Key, FileVersion>, v: FileVersion): map<Key, FileVersion> {
    if v.state.Deleted? then m - {KeyOf(v)} else m[KeyOf(v) := v]
  }

  /** The files a reader of the log ends up with, the last event of a path winning. */
  function Replay(log: seq<Event>): map<Key, FileVersion> {
    if log == [] then map[] else Play(Replay(log[..|log| - 1]), log[|log| - 1].version)
  }

  predicate Live(e: FileEntry) { e.current.Some? && !e.deleted }

  function LiveFiles(files: map<Key, FileEntry>): map<Key, FileVersion> {
    map k | k in files && Live(files[k]) :: files[k].current.value
  }

  /** The version of the last event at a key. */
  function LastAt(log: seq<Event>, key: Key): Option<FileVersion> {
    if log == [] then None
    else if KeyOf(log[|log| - 1].version) == key then Some(log[|log| - 1].version)
    else LastAt(log[..|log| - 1], key)
  }

  /** Replaying lets the last event of each key win. */
  lemma {:induction false} ReplayIsLast(log: seq<Event>, key: Key)
    ensures key in Replay(log) <==> LastAt(log, key).Some? && !LastAt(log, key).value.state.Deleted?
    ensures key in Replay(log) ==> Replay(log)[key] == LastAt(log, key).value
  {
    if log != [] { ReplayIsLast(log[..|log| - 1], key); }
  }

  /** An entry's version, tombstones included, is that of the last event at its path. */
  ghost predicate LastOk(log: seq<Event>, files: map<Key, FileEntry>) {
    forall k | k in files && files[k].current.Some? :: LastAt(log, k) == files[k].current
  }

  ghost predicate ReplayOk(log: seq<Event>, files: map<Key, FileEntry>) {
    Replay(log) == LiveFiles(files) && LastOk(log, files)
  }

  ghost predicate ChunksOk(chunks: map<string, Bytes>) {
    forall h | h in chunks :: IsHash(h) && HashBytes(chunks[h]) == h
  }

  ghost predicate Granted(grants: set<(string, string)>, v: FileVersion) {
    forall i | 0 <= i < |v.chunks| :: (v.account, v.chunks[i].hash) in grants
  }

  /** The content of a version is on disk, and its account may read it. */
  ghost predicate Available(chunks: map<string, Bytes>, grants: set<(string, string)>, v: FileVersion) {
    Joinable(chunks, v.chunks, v.hash, v.size) && Granted(grants, v)
  }

  ghost predicate ContentOk(versions: map<Id, seq<FileVersion>>, chunks: map<string, Bytes>,
                            grants: set<(string, string)>) {
    forall id, i | id in versions && 0 <= i < |versions[id]| && versions[id][i].state.File? ::
      Available(chunks, grants, versions[id][i])
  }

  /** A recorded answer that carries a version carries one of the histories. */
  ghost predicate ResponseOk(versions: map<Id, seq<FileVersion>>, op: Key, r: CommitResponse) {
    (r.status.StatusOk? ==> r.version.Some?)
    && (r.version.Some? ==>
          InHistory(versions, r.version.value)
          && r.version.value.account == op.account && r.version.value.space == op.space)
  }

  ghost predicate OpsOk(ops: map<Key, CommitResponse>, versions: map<Id, seq<FileVersion>>) {
    forall op | op in ops :: ResponseOk(versions, op, ops[op])
  }

  ghost predicate RestoredOk(restored: set<Id>, bound: nat) {
    forall id | id in restored :: id.Issued? && id.n < bound
  }

  ghost predicate Inv(s: Server) {
    HistoriesOk(s.versions, s.nextId) && UniqueVersionIds(s.versions)
    && FilesOk(s.files, s.versions, s.nextId) && DistinctFileIds(s.files)
    && LogOk(s.log, s.versions) && WindowOk(s.log, s.events, s.lastSeq) && ReplayOk(s.log, s.files)
    && ChunksOk(s.chunks) && ContentOk(s.versions, s.chunks, s.grants)
    && OpsOk(s.ops, s.versions) && RestoredOk(s.restored, s.nextId)
  }

  lemma EmptyInv()
    ensures Inv(EMPTY)
  {
  }

  ghost predicate VersionsGrow(v: map<Id, seq<FileVersion>>, v': map<Id, seq<FileVersion>>) {
    forall id | id in v :: id in v' && v[id] <= v'[id]
  }

  lemma InHistoryGrows(versions: map<Id, seq<FileVersion>>, versions': map<Id, seq<FileVersion>>, v: FileVersion)
    requires VersionsGrow(versions, versions') && InHistory(versions, v)
    ensures InHistory(versions', v)
  {
  }

  // ---------------------------------------------------------------- a new blank entry

  lemma NewEntryFiles(s: Server, key: Key)
    requires HistoriesOk(s.versions, s.nextId) && FilesOk(s.files, s.versions, s.nextId) && DistinctFileIds(s.files)
    requires IsClean(key.name) && key !in s.files
    ensures var s' := NewEntry(s, key);
            HistoriesOk(s'.versions, s'.nextId) && FilesOk(s'.files, s'.versions, s'.nextId)
              && DistinctFileIds(s'.files)
  {
  }

  lemma NewEntryInv(s: Server, key: Key)
    requires Inv(s) && IsClean(key.name) && key !in s.files
    ensures Inv(NewEntry(s, key))
  {
    NewEntryFiles(s, key);
    LiveFilesBlank(s.files, key, Issued(s.nextId));
  }

  lemma LiveFilesBlank(files: map<Key, FileEntry>, key: Key, id: Id)
    requires key !in files
    ensures LiveFiles(files[key := BlankEntry(key, id)]) == LiveFiles(files)
  {
  }

  lemma LiveFilesSet(files: map<Key, FileEntry>, key: Key, e: FileEntry)
    ensures LiveFiles(files[key := e])
         == if Live(e) then LiveFiles(files)[key := e.current.value] else LiveFiles(files) - {key}
  {
  }

  // ---------------------------------------------------------------- installing a version

  /** What the callers of `Install` guarantee about the new version. */
  ghost predicate Fits(s: Server, key: Key, v: FileVersion) {
    key in s.files && KeyOf(v) == key
    && v.fileId == s.files[key].fileId && v.versionId == Issued(s.nextId)
    && (v.state.File? || v.state.Dir? || v.state.Deleted?)
    && match s.files[key].current { case None => Starts(v) case Some(p) => Follows(p, v) }
  }

  lemma InstallTables(s: Server, key: Key, v: FileVersion)
    requires key in s.files
    ensures var s' := Install(s, key, v);
            s'.files == s.files[key := WithCurrent(s.files[key], v)]
            && s'.versions == s.versions[v.fileId := History(s.versions, v.fileId) + [v]]
            && s'.nextId == s.nextId + 1
  {
  }

  lemma InstallHistories(s: Server, key: Key, v: FileVersion)
    requires HistoriesOk(s.versions, s.nextId) && FilesOk(s.files, s.versions, s.nextId) && Fits(s, key, v)
    ensures var s' := Install(s, key, v);
            HistoriesOk(s'.versions, s'.nextId) && VersionsGrow(s.versions, s'.versions)
  {
    var s' := Install(s, key, v);
    var e := s.files[key];
    assert EntryOk(s.versions, key, e, s.nextId);
    var h := History(s.versions, e.fileId);
    var h' := h + [v];
    assert HistoryOk(e.fileId, h', s'.nextId) by {
      if h != [] {
        assert HistoryOk(e.fileId, h, s.nextId);
        assert VersionOk(e.fileId, h[0], h[|h| - 1], s.nextId);
      }
      forall i | 0 < i < |h'| ensures Follows(h'[i - 1], h'[i]) {
        if i < |h| { assert Follows(h[i - 1], h[i]); }
      }
    }
    forall id | id in s'.versions ensures HistoryOk(id, s'.versions[id], s'.nextId) {
      if id != e.fileId { assert HistoryOk(id, s.versions[id], s.nextId); }
    }
  }

  lemma InstallUnique(s: Server, key: Key, v: FileVersion)
    requires HistoriesOk(s.versions, s.nextId) && UniqueVersionIds(s.versions) && Fits(s, key, v)
    ensures UniqueVersionIds(Install(s, key, v).versions)
  {
    var vs: map<Id, seq<FileVersion>>, vs': map<Id, seq<FileVersion>> := s.versions, Install(s, key, v).versions;
    forall id, i | id in vs && 0 <= i < |vs[id]| ensures vs[id][i].versionId != v.versionId {
      assert HistoryOk(id, vs[id], s.nextId);
      assert VersionOk(id, vs[id][0], vs[id][i], s.nextId);
    }
    var n := |History(vs, v.fileId)|;
    forall id, i | id in vs' && 0 <= i < |vs'[id]|
      ensures (id == v.fileId && i == n && vs'[id][i] == v) || (id in vs && i < |vs[id]| && vs'[id][i] == vs[id][i])
    {
    }
  }

  lemma InstallFiles(s: Server, key: Key, v: FileVersion)
    requires HistoriesOk(s.versions, s.nextId) && FilesOk(s.files, s.versions, s.nextId) && DistinctFileIds(s.files)
             && Fits(s, key, v)
    ensures var s' := Install(s, key, v);
            FilesOk(s'.files, s'.versions, s'.nextId) && DistinctFileIds(s'.files)
  {
    hide IsClean, HistoryOk, VersionOk, Follows, Starts, Install;
    var s' := Install(s, key, v);
    InstallTables(s, key, v);
    forall k | k in s'.files ensures EntryOk(s'.versions, k, s'.files[k], s'.nextId) {
      assert EntryOk(s.versions, k, s.files[k], s.nextId);
      if k != key { assert s.files[k].fileId != s.files[key].fileId; }
    }
  }

  /** The window after one more event. */
  lemma WindowMoves(log: seq<Event>, events: seq<Event>, e: Event)
    requires IsNewestPart(events, log)
    ensures IsNewestPart(KeptPart(events + [e]), log + [e])
  {
    var all, log' := events + [e], log + [e];
    assert all == log'[|log'| - |all|..];
    assert KeptPart(all) == log'[|log'| - |KeptPart(all)|..];
  }

  lemma InstallWindow(s: Server, key: Key, v: FileVersion)
    requires WindowOk(s.log, s.events, s.lastSeq) && key in s.files
    ensures var s' := Install(s, key, v);
            WindowOk(s'.log, s'.events, s'.lastSeq) && s'.log == s.log + [Event(s.lastSeq + 1, v)] && s'.ops == s.ops
  {
    hide WithCurrent, History, WindowOk, AppendEvent;
    AppendWindow(
      s.(files := s.files[key := WithCurrent(s.files[key], v)],
         versions := s.versions[v.fileId := History(s.versions, v.fileId) + [v]],
         nextId := s.nextId + 1),
      v);
  }

  lemma AppendWindow(s: Server, v: FileVersion)
    requires WindowOk(s.log, s.events, s.lastSeq)
    ensures var s' := AppendEvent(s, v);
            WindowOk(s'.log, s'.events, s'.lastSeq) && s'.log == s.log + [Event(s.lastSeq + 1, v)] && s'.ops == s.ops
  {
    hide IsNewestPart, KeptPart;
    WindowMoves(s.log, s.events, Event(s.lastSeq + 1, v));
  }

  /** A version that fits its entry makes a fitting event. */
  lemma FitsLog(s: Server, key: Key, v: FileVersion)
    requires ReplayOk(s.log, s.files) && key in s.files && Fits(s, key, v)
    requires var e := s.files[key]; e.current.Some? ==> e.deleted == e.current.value.state.Deleted?
    ensures TombstoneFits(LastAt(s.log, key), v)
  {
    hide Replay, LastAt;
    ReplayIsLast(s.log, key);
    assert key in LiveFiles(s.files) <==> Live(s.files[key]);
  }

  lemma IdsBelow(log: seq<Event>, versions: map<Id, seq<FileVersion>>, bound: nat, i: nat)
    requires HistoriesOk(versions, bound) && i < |log| && InHistory(versions, log[i].version)
    ensures log[i].version.versionId.Issued? && log[i].version.versionId.n < bound
  {
    var v := log[i].version;
    assert HistoryOk(v.fileId, versions[v.fileId], bound);
  }

  lemma LinearSnoc(events: seq<Event>, e: Event)
    requires LogLinear(events) && TombstoneFits(LastAt(events, KeyOf(e.version)), e.version)
    requires forall i | 0 <= i < |events| :: events[i].version.versionId != e.version.versionId
    ensures LogLinear(events + [e])
  {
    hide LastAt, TombstoneFits;
    var all := events + [e];
    forall i, j | 0 <= i < j < |all| ensures DifferentVersions(all, i, j) {
      if j < |events| { assert DifferentVersions(events, i, j); }
    }
    forall i | 0 <= i < |all| ensures EventFits(all, i) {
      if i < |events| { assert EventFits(events, i) && all[..i] == events[..i]; } else { assert all[..i] == events; }
    }
  }

  lemma InstallLinear(s: Server, key: Key, v: FileVersion)
    requires HistoriesOk(s.versions, s.nextId) && FilesOk(s.files, s.versions, s.nextId)
             && LogOk(s.log, s.versions) && ReplayOk(s.log, s.files) && Fits(s, key, v)
    ensures LogLinear(s.log + [Event(s.lastSeq + 1, v)])
  {
    var log := s.log + [Event(s.lastSeq + 1, v)];
    assert EntryOk(s.versions, key, s.files[key], s.nextId);
    FitsLog(s, key, v);
    hide ReplayOk, FilesOk, TombstoneFits, LastAt;
    forall i | 0 <= i < |s.log| ensures s.log[i].version.versionId != v.versionId {
      IdsBelow(s.log, s.versions, s.nextId, i);
    }
    LinearSnoc(s.log, Event(s.lastSeq + 1, v));
  }

  lemma InstallLog(s: Server, key: Key, v: FileVersion)
    requires LogOk(s.log, s.versions) && WindowOk(s.log, s.events, s.lastSeq) && OpsOk(s.ops, s.versions)
             && Fits(s, key, v)
    requires LogLinear(s.log + [Event(s.lastSeq + 1, v)])
    requires VersionsGrow(s.versions, Install(s, key, v).versions)
    ensures var s' := Install(s, key, v);
            LogOk(s'.log, s'.versions) && WindowOk(s'.log, s'.events, s'.lastSeq) && OpsOk(s'.ops, s'.versions)
              && InHistory(s'.versions, v)
  {
    var s' := Install(s, key, v);
    InstallWindow(s, key, v);
    InstallTables(s, key, v);
    hide Install, WindowOk, Follows, Starts, LogLinear;
    assert s'.versions[v.fileId][|s'.versions[v.fileId]| - 1] == v;
    forall i | 0 <= i < |s'.log| ensures InHistory(s'.versions, s'.log[i].version) {
      if i < |s.log| { InHistoryGrows(s.versions, s'.versions, s.log[i].version); }
    }
    forall op | op in s'.ops ensures ResponseOk(s'.versions, op, s'.ops[op]) {
      assert ResponseOk(s.versions, op, s.ops[op]);
      if s.ops[op].version.Some? { InHistoryGrows(s.versions, s'.versions, s.ops[op].version.value); }
    }
  }

  lemma InstallReplay(s: Server, key: Key, v: FileVersion)
    requires FilesOk(s.files, s.versions, s.nextId) && ReplayOk(s.log, s.files) && Fits(s, key, v)
    ensures ReplayOk(Install(s, key, v).log, Install(s, key, v).files)
  {
    var s' := Install(s, key, v);
    assert s'.log[..|s'.log| - 1] == s.log;
    assert Replay(s'.log) == Play(Replay(s.log), v);
    InstallLast(s, key, v);
    LiveFilesSet(s.files, key, WithCurrent(s.files[key], v));
  }

  lemma InstallLast(s: Server, key: Key, v: FileVersion)
    requires LastOk(s.log, s.files) && Fits(s, key, v)
    ensures LastOk(Install(s, key, v).log, Install(s, key, v).files)
  {
    var s' := Install(s, key, v);
    assert s'.log[..|s'.log| - 1] == s.log;
    InstallTables(s, key, v);
  }

  lemma InstallContent(s: Server, key: Key, v: FileVersion)
    requires ContentOk(s.versions, s.chunks, s.grants) && Fits(s, key, v)
    requires v.state.File? ==> Available(s.chunks, s.grants, v)
    ensures ContentOk(Install(s, key, v).versions, s.chunks, s.grants)
  {
  }

  lemma InstallInv(s: Server, key: Key, v: FileVersion)
    requires Inv(s) && Fits(s, key, v)
    requires v.state.File? ==> Available(s.chunks, s.grants, v)
    ensures Inv(Install(s, key, v)) && InHistory(Install(s, key, v).versions, v)
  {
    InstallHistories(s, key, v);
    InstallUnique(s, key, v);
    InstallFiles(s, key, v);
    InstallLinear(s, key, v);
    InstallLog(s, key, v);
    InstallReplay(s, key, v);
    InstallContent(s, key, v);
  }
}
