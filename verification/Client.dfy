/** The client engine as the code has it: an object that updates its records, its cursor and the local files in
    place (internal/client/state.go, internal/client/sync.go). */
module ClientObject {
  import opened Model
  import opened Paths
  import opened ConflictNames
  import opened ClientRecords
  import opened LocalFiles
  import opened FileChunks
  import opened DirectoryCleanup
  import opened ClientEngine
  import opened StoreSpec
  import opened StoreObject
  import opened SyncProtocol
  import opened SyncSafety
  import opened EngineRuns
  import opened StoreInvariant
  import ChunkRefs

  /** `State`; every save succeeds. */
  class State {
    var files: Records
    var lastEventSeq: nat

    constructor ()
      ensures files == map[] && lastEventSeq == 0
    {
      files, lastEventSeq := map[], 0;
    }

    method Get(path: string) returns (v: LocalFileState, ok: bool)
      ensures v == Known(files, path) && ok == (path in files)
    {
      ok := path in files;
      v := if ok then files[path] else NO_RECORD;
    }

    method Set(path: string, value: LocalFileState)
      modifies this`files
      ensures files == old(files)[path := value]
    {
      files := files[path := value];
    }

    method Delete(path: string)
      modifies this`files
      ensures files == old(files) - {path}
    {
      files := files - {path};
    }

    /** A copy, entry by entry. */
    method Snapshot() returns (out: Records)
      ensures out == files
    {
      out := map[];
      var todo := files.Keys;
      while todo != {}
        invariant todo <= files.Keys
        invariant out == map p | p in files && p !in todo :: files[p]
        decreases |todo|
      {
        var k :| k in todo;
        out := out[k := files[k]];
        todo := todo - {k};
      }
    }

    /** The cursor never moves back. */
    method SetLastEventSeq(seqNo: nat)
      modifies this`lastEventSeq
      ensures lastEventSeq == Max(old(lastEventSeq), seqNo)
    {
      if seqNo > lastEventSeq { lastEventSeq := seqNo; }
    }
  }

  /** `NewID` for operations: an identifier never drawn before. */
  class IdSource {
    ghost var used: set<string>
    var count: nat

    ghost predicate Valid()
      reads this
    {
      forall id | id in used :: |id| <= count
    }

    constructor (ghost used: set<string>, bound: nat)
      requires forall id | id in used :: |id| <= bound
      ensures Valid() && this.used == used
    {
      this.used, count := used, bound;
    }

    method NewID() returns (id: string)
      requires Valid()
      modifies this
      ensures Valid() && id !in old(used) && used == old(used) + {id}
    {
      count := count + 1;
      id := seq(count, _ => '0');
      used := used + {id};
    }
  }

  class Engine {
    const account: string
    const space: string
    const device: string
    const root: string
    const state: State
    var tree: Tree

    constructor (account: string, space: string, device: string, root: string, state: State, tree: Tree)
      requires WellFormed(tree)
      ensures Valid() && Holding() == Copy(state.files, state.lastEventSeq, tree)
      ensures this.account == account && this.space == space && this.device == device && this.root == root
      ensures this.state == state
    {
      this.account, this.space, this.device, this.root := account, space, device, root;
      this.state, this.tree := state, tree;
    }

    ghost predicate Valid()
      reads this
    {
      WellFormed(tree)
    }

    /** Records, cursor and files as one value. */
    ghost function Holding(): Copy
      reads this, state
    {
      Copy(state.files, state.lastEventSeq, tree)
    }

    // -------------------------------------------------------------- applying versions

    /** `EnsureParent`, then `os.Rename`. */
    method MoveAside(rel: string, stamp: Stamp) returns (ok: bool)
      requires Valid()
      modifies this`tree
      ensures (tree, ok) == ClientEngine.MoveAside(old(tree), rel, device, stamp) && Valid()
    {
      MoveAsideWellFormed(tree, rel, device, stamp);
      hide LocalConflictName, WellFormed;
      var copy := LocalConflictName(rel, device, stamp);
      var (t1, made) := EnsureParent(tree, copy);
      tree := t1;
      if !made.Done? { return false; }
      var (t2, renamed) := Rename(tree, rel, copy);
      tree := t2;
      ok := renamed.Done? || renamed.NotExist?;
    }

    method DownloadVersion(rel: string, v: FileVersion, env: Env) returns (ok: bool)
      requires Valid()
      modifies this`tree
      ensures (tree, ok) == Download(old(tree), rel, v, env) && Valid()
    {
      DownloadWellFormed(tree, rel, v, env);
      hide WellFormed;
      var (t1, written) := AtomicWrite(tree, rel, env.fetched, env.now);
      tree := t1;
      if !written.Done? || env.fetched.Err? { return false; }
      if HashBytes(env.fetched.value) != v.hash || |env.fetched.value| != v.size { return false; }
      if v.modTime > 0 { tree := SetTime(tree, rel, v.modTime); }
      ok := true;
    }

    method ApplyDeleted(rel: string, known: LocalFileState, v: FileVersion, env: Env) returns (ok: bool)
      requires Valid() && v.state.Deleted?
      modifies this`tree
      ensures (tree, ok) == ApplyToFiles(old(tree), known, rel, device, v, env) && Valid()
    {
      RemoveWellFormed(tree, rel);
      hide WellFormed, Remove, Diverged;
      if TombstoneEntryState(v, known).Dir? {
        var (t, removed) := Remove(tree, rel);
        tree := t;
        ok := !removed.Failed?;
      } else if Diverged(tree, rel, known) {
        ok := MoveAside(rel, env.stamp);
      } else {
        var (t, removed) := Remove(tree, rel);
        tree := t;
        ok := removed.Done? || removed.NotExist?;
      }
    }

    method ApplyFile(rel: string, known: LocalFileState, v: FileVersion, env: Env) returns (ok: bool)
      requires Valid() && v.state.File?
      modifies this`tree
      ensures (tree, ok) == ApplyToFiles(old(tree), known, rel, device, v, env) && Valid()
    {
      hide WellFormed, Diverged;
      if Diverged(tree, rel, known) {
        var aside := MoveAside(rel, env.stamp);
        if !aside { return false; }
      }
      ok := DownloadVersion(rel, v, env);
    }

    /** `applyVersion`. */
    method ApplyVersion(v: FileVersion, env: Env) returns (ok: bool)
      requires Valid()
      modifies this`tree, state`files
      ensures (Holding(), ok) == ClientEngine.ApplyVersion(old(Holding()), device, v, env) && Valid()
    {
      hide CleanRel, WellFormed;
      var clean := CleanRel(v.path);
      if clean.Err? { return false; }
      var rel := clean.value;
      var known, hasKnown := state.Get(rel);
      match v.state {
        case Deleted =>
          if hasKnown && known.versionId == v.versionId { return true; }
          ok := ApplyDeleted(rel, known, v, env);
        case Dir =>
          if hasKnown && known.versionId == v.versionId { return true; }
          MkdirAllWellFormed(tree, rel);
          var (t, made) := MkdirAll(tree, rel);
          tree := t;
          ok := made.Done?;
        case File =>
          if hasKnown && known.versionId == v.versionId { return true; }
          ok := ApplyFile(rel, known, v, env);
        case _ => return false;
      }
      if ok { state.Set(rel, StateFromVersion(v, env.now)); }
    }

    // -------------------------------------------------------------- pulling

    /** Longest path first, ties in any order. */
    method LongestFirstOrder(dirs: set<string>) returns (order: seq<string>)
      ensures LongestFirst(order) && SetOf(order) == dirs
    {
      order := [];
      var todo := dirs;
      while todo != {}
        invariant SortedSoFar(order, todo, dirs)
        decreases |todo|
      {
        LongestExists(todo);
        var p :| p in todo && forall q | q in todo :: |q| <= |p|;
        NextLongest(order, todo, dirs, p);
        order := order + [p];
        todo := todo - {p};
      }
    }

    /** `cleanupDeletedDirs`. */
    method CleanupDeletedDirs() returns (ok: bool, ghost order: seq<string>)
      requires Valid()
      modifies this`tree
      ensures LongestFirst(order) && SetOf(order) == DeletedDirs(state.files)
      ensures (tree, ok) == RemoveEach(old(tree), order) && Valid()
    {
      var states := state.Snapshot();
      var dirs := LongestFirstOrder(DeletedDirs(states));
      order := dirs;
      var i := 0;
      while i < |dirs|
        invariant 0 <= i <= |dirs| && Valid()
        invariant RemoveEach(old(tree), dirs) == RemoveEach(tree, dirs[i..])
      {
        RemoveWellFormed(tree, dirs[i]);
        assert dirs[i..][0] == dirs[i] && dirs[i..][1..] == dirs[i + 1..];
        var (t, removed) := Remove(tree, dirs[i]);
        tree := t;
        if removed.Failed? { return false, dirs; }
        i := i + 1;
      }
      assert dirs[|dirs|..] == [];
      ok := true;
    }

    /** `pullRemote`, given the server's answer. */
    method PullRemote(answer: seq<Event>, envs: seq<Env>) returns (ok: bool)
      requires Valid()
      modifies this`tree, state
      ensures PullEnds(old(Holding()), device, root, answer, envs, Holding(), ok) && Valid()
    {
      hide SortBySeq, ClientEngine.ApplyVersion, WellFormed;
      var events := SortBySeq(answer);
      var i := 0;
      while i < |events|
        invariant 0 <= i <= |events| && i <= |envs| && Valid()
        invariant PullEvents(old(Holding()), device, root, events, envs)
               == PullEvents(Holding(), device, root, events[i..], envs[i..])
      {
        assert events[i..][0] == events[i] && events[i..][1..] == events[i + 1..];
        if i == |envs| {
          assert envs[i..] == [];
          return false;
        }
        assert envs[i..][0] == envs[i] && envs[i..][1..] == envs[i + 1..];
        if OwnEvent(device, root, events[i]) {
          state.SetLastEventSeq(events[i].seqNo);
        } else {
          var applied := ApplyVersion(events[i].version, envs[i]);
          if !applied { return false; }
          state.SetLastEventSeq(events[i].seqNo);
        }
        i := i + 1;
      }
      assert events[|events|..] == [];
      ghost var order;
      ok, order := CleanupDeletedDirs();
    }

    // -------------------------------------------------------------- pushing

    function Me(): Client { Client(account, space, device, root) }

    ghost function Now(store: Store): Moment
      reads this, state, store
    {
      Moment(store.Tables(), state.files, tree)
    }

    /** `w` is the world of the protocol, as client `id` sees it. */
    ghost predicate Sees(w: World, id: nat, store: Store, ids: IdSource)
      reads this, state, store, ids
    {
      WorldOk(w) && Valid() && store.Valid() && ids.Valid() && w.sent.Keys <= ids.used
      && Stands(w, id, Me(), store.Tables(), state.files, state.lastEventSeq)
    }

    /** Send a commit and wait for the answer, which may be lost. */
    method PostCommit(store: Store, ids: IdSource, rel: string, entry: Scan, ghost w: World, ghost id: nat)
      returns (r: Result<CommitResponse>, opId: string, clock: Clock, ghost w': World)
      requires Sees(w, id, store, ids) && IsClean(rel)
      modifies store, ids
      ensures Sees(w', id, store, ids) && Leads(w, w')
      ensures var req := Upload(Me(), state.files, opId, rel, entry);
              r.Ok? ==> (store.Tables(), r) == StoreSpec.Commit(old(store.Tables()), account, space, req, clock)
                        && r.value.version.Some? && (opId, r.value) in w'.replies
                        && opId in w'.sent && w'.sent[opId] == Sent(id, CommitMessage(req))
      ensures Key(account, space, opId) !in old(store.Tables()).ops
    {
      hide WorldOk, Inv, WellFormed, Committed, Leads, IsClean, StoreSpec.Commit;
      hide ChunkRefs.Conserved;
      var known, _ := state.Get(rel);
      opId := ids.NewID();
      UnsentIsUnused(w, account, space, opId);
      clock := *;
      CommittedIs(w, id, opId, rel, entry, clock);
      CommittedLeads(w, id, opId, rel, entry, clock);
      var manifest := Manifest(known.fileId, rel, known.versionId, entry.state, entry.size, entry.hash, entry.chunks,
                               entry.modTime);
      r := store.Commit(account, space, CommitRequest(opId, device, root, manifest), clock);
      w' := Committed(w, id, opId, rel, entry, clock);
      LeadsOk(w, w');
      if r.Ok? { CommitReplyHasVersion(w', opId, r.value); }
      if * { r := Err("no answer"); }
    }

    /** Record the answer to a commit: the world takes the step `Receive`. */
    method RecordCommit(store: Store, ids: IdSource, rel: string, entry: Scan, opId: string, r: CommitResponse,
                        ghost w: World, ghost id: nat) returns (ghost time: int, ghost w': World)
      requires Sees(w, id, store, ids) && r.version.Some? && (opId, r) in w.replies
      requires opId in w.sent && w.sent[opId] == Sent(id, CommitMessage(Upload(Me(), state.files, opId, rel, entry)))
      modifies state`files
      ensures Sees(w', id, store, ids) && Leads(w, w')
      ensures state.files
           == Recorded(old(state.files), CommitMessage(Upload(Me(), old(state.files), opId, rel, entry)), r, time)
    {
      hide WorldOk, Inv, WellFormed, Leads, Next;
      hide ChunkRefs.Conserved;
      var clock: int := *;
      time := clock;
      ReceivedIs(w, id, opId, r, time);
      w' := Next(w, Receive(opId, r, time));
      LeadsNext(w, Receive(opId, r, time));
      LeadsOk(w, w');
      var v := r.version.value;
      if entry.state.File? && v.path != rel && r.conflictPath != "" { state.Delete(rel); }
      state.Set(v.path, StateFromVersion(v, clock));
    }

    /** `uploadDir`. */
    method UploadDir(store: Store, ids: IdSource, rel: string, entry: Scan, ghost w: World, ghost id: nat)
      returns (ok: bool, ghost w': World, ghost opId: string, ghost clock: Clock, ghost time: int)
      requires Sees(w, id, store, ids) && IsClean(rel) && entry.state.Dir?
      modifies state`files, store, ids
      ensures Sees(w', id, store, ids) && Leads(w, w')
      ensures ok ==> DirSent(Me(), old(Now(store)), Now(store), rel, entry, opId, clock, time)
    {
      hide WorldOk, Inv, WellFormed, Leads, Next, IsClean, StoreSpec.Commit, Recorded, Upload;
      hide ChunkRefs.Conserved;
      var sent := Scan(Dir, 0, "", [], entry.modTime);
      var r, op, at;
      r, op, at, w' := PostCommit(store, ids, rel, sent, w, id);
      opId, clock, time := op, at, 0;
      if r.Err? { return false, w', opId, clock, time; }
      ghost var w1 := w';
      time, w' := RecordCommit(store, ids, rel, sent, op, r.value, w1, id);
      LeadsOn(w, w1, w');
      ok := true;
    }

    /** The local file follows its conflict copy. */
    method FollowCopyTo(rel: string, r: CommitResponse) returns (ok: bool)
      requires Valid()
      modifies this`tree
      ensures (tree, ok) == FollowCopy(old(tree), rel, r) && Valid()
    {
      EnsureParentWellFormed(tree, r.conflictPath);
      RenameWellFormed(EnsureParent(tree, r.conflictPath).0, rel, r.conflictPath);
      hide WellFormed, EnsureParent, Rename;
      if r.version.Some? && r.version.value.path != rel && r.conflictPath != "" {
        var (t1, made) := EnsureParent(tree, r.conflictPath);
        tree := t1;
        if !made.Done? { return false; }
        var (t2, renamed) := Rename(tree, rel, r.conflictPath);
        tree := t2;
        ok := renamed.Done?;
      } else {
        ok := true;
      }
    }

    /** Send the chunks of a file the server misses. */
    method SendChunks(store: Store, ids: IdSource, rel: string, entry: Scan, chunkSize: nat, ghost w: World,
                      ghost id: nat)
      returns (ok: bool, ghost w': World)
      requires Sees(w, id, store, ids) && chunkSize > 0
      modifies store
      ensures Sees(w', id, store, ids) && Leads(w, w')
      ensures ok ==> store.Tables() == ChunksSent(old(store.Tables()), account, ContentAt(tree, rel), chunkSize, entry)
    {
      hide WorldOk, Inv, WellFormed, Leads, Next, SendBlocks, Blocks, StoreSpec.CheckChunks;
      hide ChunkRefs.Conserved;
      var missing := store.CheckChunks(account, HashesOf(entry.chunks));
      w' := w;
      LeadsNowhere(w);
      ok := true;
      if missing != [] {
        if !IsFile(tree, rel) { return false, w'; }
        var content := tree[rel].data;
        var wanted := set h | h in missing;
        BlocksLead(w, account, Blocks(content, chunkSize), wanted);
        UploadMissing(store, account, content, chunkSize, wanted);
        w' := w.(server := store.Tables());
        LeadsOk(w, w');
        if * { ok := false; }
      }
    }

    /** `uploadFile`. */
    method UploadFile(store: Store, ids: IdSource, rel: string, entry: Scan, chunkSize: nat, ghost w: World,
                      ghost id: nat)
      returns (ok: bool, ghost w': World, ghost opId: string, ghost clock: Clock, ghost time: int)
      requires Sees(w, id, store, ids) && IsClean(rel) && entry.state.File? && chunkSize > 0
      modifies this`tree, state`files, store, ids
      ensures Sees(w', id, store, ids) && Leads(w, w')
      ensures ok ==> FileSent(Me(), old(Now(store)), Now(store), rel, entry, chunkSize, opId, clock, time)
    {
      hide WorldOk, Inv, WellFormed, Leads, Next, IsClean, StoreSpec.Commit, Recorded, Upload, FollowCopy, ChunksSent;
      hide ChunkRefs.Conserved;
      opId, time := "", 0;
      clock := *;
      ok, w' := SendChunks(store, ids, rel, entry, chunkSize, w, id);
      if !ok { return; }
      ghost var w1 := w';
      var r, op, at;
      SendKeepsOps(old(store.Tables()), account, Blocks(ContentAt(tree, rel), chunkSize),
                   MissingOf(old(store.Tables()), account, entry));
      ChunksSentIs(old(store.Tables()), account, ContentAt(tree, rel), chunkSize, entry);
      r, op, at, w' := PostCommit(store, ids, rel, entry, w1, id);
      LeadsOn(w, w1, w');
      opId, clock := op, at;
      if r.Err? { return false, w', opId, clock, time; }
      ok := FollowCopyTo(rel, r.value);
      if !ok { return; }
      ghost var w2 := w';
      time, w' := RecordCommit(store, ids, rel, entry, op, r.value, w2, id);
      LeadsOn(w, w2, w');
    }

    /** One round of the first loop of `pushLocal`. */
    method VisitEntry(store: Store, ids: IdSource, rel: string, entry: Scan, chunkSize: nat, ghost w: World,
                      ghost id: nat)
      returns (ok: bool, ghost w': World)
      requires Sees(w, id, store, ids) && IsClean(rel) && (entry.state.File? || entry.state.Dir?) && chunkSize > 0
      modifies this`tree, state`files, store, ids
      ensures Sees(w', id, store, ids) && Leads(w, w')
      ensures ok ==> Visited(Me(), old(Now(store)), Now(store), rel, entry, chunkSize)
    {
      hide WorldOk, Inv, WellFormed, Leads, Next, IsClean, FileSent, DirSent;
      hide ChunkRefs.Conserved;
      w', ok := w, true;
      LeadsNowhere(w);
      ghost var opId, clock, time;
      var known, recorded := state.Get(rel);
      if entry.state.Dir? {
        if recorded && known.state.Dir? { return; }
        ok, w', opId, clock, time := UploadDir(store, ids, rel, entry, w, id);
      } else if recorded && known.state.File? && known.hash == entry.hash && known.size == entry.size {
        if known.modTime != entry.modTime {
          var now: int := *;
          TouchedIs(w, id, rel, entry.modTime, now);
          w' := Next(w, Touch(id, rel, entry.modTime, now));
          LeadsNext(w, Touch(id, rel, entry.modTime, now));
          LeadsOk(w, w');
          state.Set(rel, known.(modTime := entry.modTime, updatedAt := now));
          assert Now(store) == old(Now(store)).(records := Touched(old(state.files), rel, entry.modTime, now));
        }
      } else {
        ok, w', opId, clock, time := UploadFile(store, ids, rel, entry, chunkSize, w, id);
      }
    }

    /** One round of the second loop: delete on the server what is gone here. */
    method RemoveRemote(store: Store, ids: IdSource, rel: string, known: LocalFileState, ghost w: World, ghost id: nat)
      returns (ok: bool, ghost w': World, ghost opId: string, ghost clock: Clock, ghost time: int)
      requires Sees(w, id, store, ids) && rel in state.files && known == state.files[rel]
      modifies state`files, store, ids
      ensures Sees(w', id, store, ids) && Leads(w, w')
      ensures ok ==> Removed(Me(), old(Now(store)), Now(store), rel, opId, clock, time)
      ensures forall p | p != rel && p in old(state.files) :: p in state.files && state.files[p] == old(state.files)[p]
    {
      hide WorldOk, Inv, WellFormed, Leads, Next, StoreSpec.Delete, EngineRuns.Deleted;
      hide ChunkRefs.Conserved;
      var op := ids.NewID();
      UnsentIsUnused(w, account, space, op);
      var at: Clock := *;
      var now: int := *;
      opId, clock, time := op, at, now;
      DeletedIs(w, id, op, rel, at);
      DeletedLeads(w, id, op, rel, at);
      var r := store.Delete(account, space, DeleteRequest(op, device, root, rel, known.fileId, known.versionId), at);
      w' := EngineRuns.Deleted(w, id, op, rel, at);
      LeadsOk(w, w');
      if r.Err? { return false, w', opId, clock, time; }
      if * { return false, w', opId, clock, time; }
      ReceivedIs(w', id, op, r.value, now);
      LeadsNext(w', Receive(op, r.value, now));
      LeadsOn(w, w', Next(w', Receive(op, r.value, now)));
      w' := Next(w', Receive(op, r.value, now));
      LeadsOk(w, w');
      if r.value.status.StatusOk? && r.value.version.Some? {
        state.Set(rel, DeletedRecord(rel, known.fileId, r.value.version.value.versionId, known.state, now));
      }
      ok := true;
    }

    /** `scanLocal`. */
    method ScanLocal(chunkSize: nat) returns (scan: map<string, Scan>, ghost dirTimes: map<string, int>)
      requires chunkSize > 0
      ensures scan == ScanOf(tree, chunkSize, dirTimes)
    {
      hide Blocks, RefsOf;
      scan, dirTimes := map[], map[];
      var todo := tree.Keys;
      while todo != {}
        invariant todo <= tree.Keys
        invariant dirTimes.Keys !! todo
        invariant scan == map p | p in tree && p !in todo && Scanned(tree, p) ::
                            ScanEntry(tree[p], chunkSize, if p in dirTimes then dirTimes[p] else 0)
        decreases |todo|
      {
        var rel :| rel in todo;
        if Scanned(tree, rel) {
          match tree[rel] {
            case DirNode =>
              var mtime: int := *;
              scan := scan[rel := Scan(Dir, 0, "", [], mtime)];
              dirTimes := dirTimes[rel := mtime];
            case FileNode(data, mtime) =>
              var hash, chunks, size := HashFile(data, chunkSize);
              scan := scan[rel := Scan(File, size, hash, chunks, mtime)];
          }
        }
        todo := todo - {rel};
      }
    }

    /** The first loop of `pushLocal`: upload what is new or changed, unless cancelled. */
    method PushChanged(store: Store, ids: IdSource, scan: map<string, Scan>, chunkSize: nat, ghost w: World,
                       ghost id: nat)
      returns (ok: bool, ghost w': World)
      requires Sees(w, id, store, ids) && chunkSize > 0
      requires forall p | p in scan :: IsClean(p) && (scan[p].state.File? || scan[p].state.Dir?)
      modifies this`tree, state`files, store, ids
      ensures Sees(w', id, store, ids) && Leads(w, w')
      ensures ok ==> VisitsAll(Me(), old(Now(store)), Now(store), scan, scan.Keys, chunkSize)
    {
      hide WorldOk, Inv, WellFormed, Leads, IsClean, Visited;
      hide ChunkRefs.Conserved;
      w' := w;
      LeadsNowhere(w);
      var todo := scan.Keys;
      while todo != {}
        invariant todo <= scan.Keys && Sees(w', id, store, ids) && Leads(w, w')
        invariant forall m :: VisitsAll(Me(), Now(store), m, scan, todo, chunkSize)
                    ==> VisitsAll(Me(), old(Now(store)), m, scan, scan.Keys, chunkSize)
        decreases |todo|
      {
        if * { return false, w'; }
        var rel :| rel in todo;
        ghost var before, w1 := Now(store), w';
        ok, w' := VisitEntry(store, ids, rel, scan[rel], chunkSize, w1, id);
        LeadsOn(w, w1, w');
        if !ok { return; }
        forall m
          ensures VisitsAll(Me(), Now(store), m, scan, todo - {rel}, chunkSize)
                  ==> VisitsAll(Me(), before, m, scan, todo, chunkSize)
        {
          VisitsOne(Me(), before, Now(store), m, scan, todo, rel, chunkSize);
        }
        todo := todo - {rel};
      }
      ok := true;
    }

    /** The second loop: delete what is gone, unless cancelled. */
    method PushGone(store: Store, ids: IdSource, scan: map<string, Scan>, ghost w: World, ghost id: nat)
      returns (ok: bool, ghost w': World)
      requires Sees(w, id, store, ids)
      modifies state`files, store, ids
      ensures Sees(w', id, store, ids) && Leads(w, w')
      ensures ok ==> RemovesAll(Me(), old(Now(store)), Now(store), GonePaths(old(state.files), scan))
    {
      hide WorldOk, Inv, WellFormed, Leads, Removed;
      hide ChunkRefs.Conserved;
      w' := w;
      LeadsNowhere(w);
      var known := state.Snapshot();
      var gone := GonePaths(known, scan);
      var todo := gone;
      while todo != {}
        invariant todo <= gone && Sees(w', id, store, ids) && Leads(w, w')
        invariant forall p | p in todo :: p in known && p in state.files && state.files[p] == known[p]
        invariant forall m :: RemovesAll(Me(), Now(store), m, todo) ==> RemovesAll(Me(), old(Now(store)), m, gone)
        decreases |todo|
      {
        if * { return false, w'; }
        var rel :| rel in todo;
        ghost var before, w1, opId, clock, time := Now(store), w', "", Clock(0, ""), 0;
        ok, w', opId, clock, time := RemoveRemote(store, ids, rel, known[rel], w1, id);
        LeadsOn(w, w1, w');
        if !ok { return; }
        forall m ensures RemovesAll(Me(), Now(store), m, todo - {rel}) ==> RemovesAll(Me(), before, m, todo) {
          RemovesOne(Me(), before, Now(store), m, todo, rel, opId, clock, time);
        }
        todo := todo - {rel};
      }
      ok := true;
    }

    /** `pushLocal`. */
    method PushLocal(store: Store, ids: IdSource, chunkSize: nat, ghost w: World, ghost id: nat)
      returns (ok: bool, ghost w': World)
      requires Sees(w, id, store, ids) && chunkSize > 0 && forall p | p in tree :: IsClean(p)
      modifies this`tree, state`files, store, ids
      ensures Sees(w', id, store, ids) && Leads(w, w')
      ensures ok ==> Pushed(Me(), old(Now(store)), Now(store), chunkSize)
    {
      hide WorldOk, Inv, WellFormed, Leads, VisitsAll, RemovesAll, IsClean, Blocks, RefsOf;
      hide ChunkRefs.Conserved;
      var scan, dirTimes := ScanLocal(chunkSize);
      ok, w' := PushChanged(store, ids, scan, chunkSize, w, id);
      if !ok { return; }
      ghost var w1 := w';
      ok, w' := PushGone(store, ids, scan, w1, id);
      LeadsOn(w, w1, w');
    }

    // -------------------------------------------------------------- syncing

    /** What the server answers to a cursor. */
    ghost function Answer(store: Store, cursor: nat): seq<Event>
      reads store
    {
      StoreSpec.EventsAfter(store.Tables(), account, space, cursor)
    }

    /** `pullRemote` against the server. */
    method PullFrom(store: Store, ids: IdSource, envs: seq<Env>, ghost w: World, ghost id: nat)
      returns (ok: bool, ghost answer: seq<Event>, ghost w': World)
      requires Sees(w, id, store, ids)
      modifies this`tree, state
      ensures Sees(w', id, store, ids) && Leads(w, w')
      ensures answer == Answer(store, old(state.lastEventSeq))
      ensures PullEnds(old(Holding()), device, root, answer, envs, Holding(), ok)
    {
      hide WorldOk, Inv, WellFormed, Leads, PullEnds, StoreSpec.EventsAfter;
      hide ChunkRefs.Conserved;
      var events := store.EventsAfter(account, space, state.lastEventSeq);
      answer := events;
      ok := PullRemote(events, envs);
      w' := PullEndLeads(w, id, old(Holding()), envs, Holding(), ok);
      LeadsOk(w, w');
    }

    /** `syncOnce`, the downloads of its two pulls given: pull, push, pull; and a run of the protocol, however it
        ends. */
    method SyncOnce(store: Store, ids: IdSource, chunkSize: nat, first: seq<Env>, second: seq<Env>, ghost w: World,
                    ghost id: nat)
      returns (ok: bool, ghost w': World, ghost pulled: Copy, ghost pushed: Moment)
      requires Sees(w, id, store, ids) && chunkSize > 0 && CleanTree(tree)
      modifies this`tree, state, store, ids
      ensures Sees(w', id, store, ids) && Leads(w, w')
      ensures ok ==>
                PullEnds(old(Holding()), device, root, old(Answer(store, state.lastEventSeq)), first, pulled, true)
                && Pushed(Me(), Moment(old(store.Tables()), pulled.records, pulled.tree), pushed, chunkSize)
                && pushed.server == store.Tables()
                && PullEnds(Copy(pushed.records, pulled.cursor, pushed.tree), device, root,
                            Answer(store, pulled.cursor), second, Holding(), true)
    {
      hide WorldOk, Inv, WellFormed, Leads, PullEnds, StoreSpec.EventsAfter, Pushed, IsClean;
      hide ChunkRefs.Conserved;
      ghost var answer, w1, w2;
      ok, answer, w1 := PullFrom(store, ids, first, w, id);
      w', pulled, pushed := w1, Holding(), Now(store);
      PullEndsClean(old(Holding()), device, root, answer, first, Holding(), ok);
      if !ok { return; }
      ok, w2 := PushLocal(store, ids, chunkSize, w1, id);
      LeadsOn(w, w1, w2);
      w', pushed := w2, Now(store);
      if !ok { return; }
      ok, answer, w' := PullFrom(store, ids, second, w2, id);
      LeadsOn(w, w2, w');
    }
  }

  ghost predicate SortedSoFar(order: seq<string>, todo: set<string>, dirs: set<string>) {
    LongestFirst(order) && SetOf(order) == dirs - todo && todo <= dirs
    && forall i, p | 0 <= i < |order| && p in todo :: |order[i]| >= |p|
  }

  lemma NextLongest(order: seq<string>, todo: set<string>, dirs: set<string>, p: string)
    requires SortedSoFar(order, todo, dirs) && p in todo && forall q | q in todo :: |q| <= |p|
    ensures SortedSoFar(order + [p], todo - {p}, dirs)
  {
    forall i | 0 <= i < |order| ensures order[i] != p { assert order[i] in SetOf(order); }
    assert SetOf(order + [p]) == SetOf(order) + {p};
  }

  lemma LongestExists(s: set<string>)
    requires s != {}
    ensures exists p :: p in s && forall q | q in s :: |q| <= |p|
  {
    var x :| x in s;
    if s != {x} {
      LongestExists(s - {x});
      var p :| p in s - {x} && forall q | q in s - {x} :: |q| <= |p|;
      if |p| < |x| { assert forall q | q in s :: |q| <= |x|; } else { assert forall q | q in s :: |q| <= |p|; }
    } else {
      assert forall q | q in s :: |q| <= |x|;
    }
  }
}
