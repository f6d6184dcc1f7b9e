/** A client that only pulls, from an empty root, ends up with the server's live files
    (internal/client/sync.go, internal/server/store.go). */
module PassiveReplica {
  import opened Model
  import opened Paths
  import opened ClientRecords
  import opened StoreSpec
  import opened StoreInvariant
  import opened StoreGrowth
  import opened EventWindow
  import opened LocalFiles
  import opened FileChunks
  import opened ClientEngine
  import opened ConflictNames
  import opened DirectoryCleanup

  // ---------------------------------------------------------------- the events of one space

  ghost predicate Numbered(log: seq<Event>) { forall i | 0 <= i < |log| :: log[i].seqNo == i + 1 }

  function SpaceLog(log: seq<Event>, account: string, space: string): seq<Event> {
    FilterEvents(log, account, space, 0)
  }

  /** Where the cursor stands once the first `k` events were applied. */
  function CursorAfter(events: seq<Event>, k: nat): nat
    requires k <= |events|
  {
    if k == 0 then 0 else events[k - 1].seqNo
  }

  /** The events of a space, in order, are events of the log. */
  lemma {:induction false} SpaceLogEvents(log: seq<Event>, account: string, space: string)
    requires Numbered(log)
    ensures var own := SpaceLog(log, account, space);
            (forall i | 0 <= i < |own| ::
               own[i] in log && 0 < own[i].seqNo <= |log| && own[i].version.account == account
                 && own[i].version.space == space)
            && Ascending(own)
  {
    if log != [] { SpaceLogEvents(log[..|log| - 1], account, space); }
  }

  /** A cursor behind the first `k` events selects the others. */
  lemma {:induction false} SelectRest(log: seq<Event>, account: string, space: string, k: nat)
    requires Numbered(log) && k <= |SpaceLog(log, account, space)|
    ensures var own := SpaceLog(log, account, space);
            FilterEvents(log, account, space, CursorAfter(own, k)) == own[k..]
  {
    var own := SpaceLog(log, account, space);
    if log != [] {
      var front, e := log[..|log| - 1], log[|log| - 1];
      var before := SpaceLog(front, account, space);
      SpaceLogEvents(front, account, space);
      if k == |own| && Wanted(e, account, space, 0) {
        FilterNone(log, account, space, e.seqNo);
      } else {
        SelectRest(front, account, space, k);
        assert CursorAfter(own, k) == CursorAfter(before, k) <= |front|;
        assert own[k..] == before[k..] + own[|before|..];
      }
    }
  }

  lemma SpaceLogGrows(log: seq<Event>, log': seq<Event>, account: string, space: string)
    requires log <= log'
    ensures SpaceLog(log, account, space) <= SpaceLog(log', account, space)
  {
    assert log' == log + log'[|log|..];
    FilterConcat(log, log'[|log|..], account, space, 0);
  }

  lemma {:induction false} LastInSpace(log: seq<Event>, account: string, space: string, path: string)
    requires Numbered(log)
    ensures LastAt(SpaceLog(log, account, space), Key(account, space, path)) == LastAt(log, Key(account, space, path))
  {
    if log != [] { LastInSpace(log[..|log| - 1], account, space, path); }
  }

  /** What holds of the log holds of the events of a space: versions of their own, tombstones in their places. */
  lemma {:induction false} SpaceLogLinear(log: seq<Event>, account: string, space: string)
    requires Numbered(log) && LogLinear(log)
    ensures LogLinear(SpaceLog(log, account, space))
  {
    if log != [] {
      var n := |log| - 1;
      var front := log[..n];
      LinearFront(log);
      SpaceLogLinear(front, account, space);
      if Wanted(log[n], account, space, 0) {
        var own := SpaceLog(front, account, space);
        SpaceLogEvents(front, account, space);
        LastInSpace(front, account, space, log[n].version.path);
        forall i | 0 <= i < |own| ensures own[i].version.versionId != log[n].version.versionId {
          var j :| 0 <= j < |front| && front[j] == own[i];
          assert log[j] == own[i] && DifferentVersions(log, j, n);
        }
        LinearSnoc(own, log[n]);
      }
    }
  }

  lemma LinearFront(log: seq<Event>)
    requires log != [] && LogLinear(log)
    ensures LogLinear(log[..|log| - 1])
    ensures var e := log[|log| - 1]; TombstoneFits(LastAt(log[..|log| - 1], KeyOf(e.version)), e.version)
  {
    hide LastAt, TombstoneFits;
    var front := log[..|log| - 1];
    assert EventFits(log, |log| - 1);
    forall i, j | 0 <= i < j < |front| ensures DifferentVersions(front, i, j) { assert DifferentVersions(log, i, j); }
    forall i | 0 <= i < |front| ensures EventFits(front, i) {
      assert EventFits(log, i) && front[..i] == log[..i];
    }
  }

  // ---------------------------------------------------------------- what stands in a version's way

  /** No file or directory is recorded below the path. */
  predicate Vacant(records: Records, rel: string) {
    forall q | q in records && Under(q, rel) :: !records[q].state.File? && !records[q].state.Dir?
  }

  /** A directory at the path of a file, or of a file's tombstone, can be got rid of: an empty one that is recorded
      is removed, one that is not recorded is moved aside if nothing recorded is in it and the name is free. */
  predicate GivesWay(c: Copy, rel: string, device: string, v: FileVersion, stamp: Stamp) {
    IsDir(c.tree, rel) ==>
      if Known(c.records, rel).state.Dir? then v.state.Deleted? && !HasChildren(c.tree, rel)
      else Vacant(c.records, rel) && LocalConflictName(rel, device, stamp) !in c.tree
  }

  /** What a client could check before it applies a version. */
  predicate Applicable(c: Copy, device: string, v: FileVersion, env: Env) {
    IsRecorded(c.records, v.path, v)
    || (!BlockedAbove(c.tree, v.path)
        && (v.state.Dir? ==> !IsFile(c.tree, v.path))
        && (v.state.File? || (v.state.Deleted? && !TombstoneEntryState(v, Known(c.records, v.path)).Dir?) ==>
              GivesWay(c, v.path, device, v, env.stamp)))
  }

  // ---------------------------------------------------------------- one version on the files

  /** The files after `v` was applied at `rel`, and no other file touched. */
  ghost predicate FilesAfter(records: Records, t: Tree, t': Tree, rel: string, v: FileVersion, content: Bytes) {
    (forall p | p != rel :: IsFile(t', p) <==> IsFile(t, p))
    && (forall p | p != rel && IsFile(t, p) :: t'[p] == t[p])
    && (IsFile(t', rel) <==> v.state.File?)
    && (v.state.File? ==> t'[rel].data == content && (v.modTime > 0 ==> t'[rel].mtime == v.modTime))
    && (forall d | d != rel && d in records && records[d].state.Dir? && IsDir(t, d) :: IsDir(t', d))
    && (v.state.Dir? ==> IsDir(t', rel))
  }

  /** Files and recorded directories are the same in both trees. */
  ghost predicate SameFiles(records: Records, t: Tree, t': Tree, rel: string) {
    (forall p :: IsFile(t', p) <==> IsFile(t, p)) && (forall p | IsFile(t, p) :: t'[p] == t[p])
    && (forall d | d != rel && d in records && records[d].state.Dir? && IsDir(t, d) :: IsDir(t', d))
  }

  lemma ParentsThere(t: Tree, p: string)
    requires forall d | d in Above(p) :: IsDir(t, d)
    ensures EnsureParent(t, p) == (t, Done)
  {
    assert forall d | d in Above(p) :: !IsFile(t, d);
    var missing: Tree := map d | d in Above(p) && d !in t :: DirNode;
    assert t + missing == t;
  }

  /** A directory that holds no files is moved aside without touching any file. */
  lemma AsideClear(records: Records, t: Tree, rel: string, device: string, stamp: Stamp)
    requires WellFormed(t) && IsDir(t, rel) && LocalConflictName(rel, device, stamp) !in t
    requires Vacant(records, rel) && forall q | Under(q, rel) :: !IsFile(t, q)
    ensures var (t', done) := MoveAside(t, rel, device, stamp);
            done && rel !in t' && SameFiles(records, t, t', rel)
            && forall d | d in Above(rel) :: !IsFile(t', d)
  {
    var copy := LocalConflictName(rel, device, stamp);
    CopySharesParents(rel, device, stamp);
    hide LocalConflictName, MoveTree;
    ParentsThere(t, copy);
    if Under(copy, rel) { AboveIsUnder(copy, rel); AboveIsUnder(rel, rel); assert false; }
    var t' := MoveTree(t, rel, copy);
    assert Rename(t, rel, copy) == (t', Done);
    forall p
      ensures IsFile(t', p) <==> IsFile(t, p)
      ensures IsFile(t, p) ==> t'[p] == t[p]
      ensures IsDir(t, p) && !Within(p, rel) ==> IsDir(t', p)
    {
      MovedAt(t, rel, copy, p);
      if Arrives(t, rel, copy, p) { NothingArrivesOver(t, rel, copy, p); }
    }
    MovedAt(t, rel, copy, rel);
  }

  lemma NothingArrivesOver(t: Tree, rel: string, copy: string, p: string)
    requires WellFormed(t) && copy !in t && Arrives(t, rel, copy, p)
    ensures p !in t && Within(Back(p, rel, copy), rel) && p != rel
  {
  }

  lemma DownloadClear(records: Records, t: Tree, rel: string, v: FileVersion, env: Env)
    requires forall d | d in Above(rel) :: !IsFile(t, d)
    requires !IsDir(t, rel) && v.state.File? && env.fetched.Ok? && WholeFileOk(env.fetched.value, v)
    ensures var (t', done) := Download(t, rel, v, env);
            done && FilesAfter(records, t, t', rel, v, env.fetched.value)
  {
  }

  lemma DownloadAfter(records: Records, t: Tree, t1: Tree, t': Tree, rel: string, v: FileVersion, content: Bytes)
    requires SameFiles(records, t, t1, rel) && FilesAfter(records, t1, t', rel, v, content)
    ensures FilesAfter(records, t, t', rel, v, content)
  {
  }

  // ---------------------------------------------------------------- what the client has after k events

  /** The record at a path is that of the last event there. */
  predicate Remembers(records: Records, p: string, last: Option<FileVersion>) {
    match last
    case None => p !in records
    case Some(v) => p in records && records[p] == StateFromVersion(v, records[p].updatedAt)
  }

  /** The regular file at a path is that of the last event there; so is a directory, though one may also be
      there for what lies below. */
  predicate Shows(t: Tree, p: string, last: Option<FileVersion>, chunks: map<string, Bytes>) {
    (IsFile(t, p) <==> last.Some? && last.value.state.File?)
    && (IsFile(t, p) ==> t[p].data == Assemble(chunks, last.value.chunks)
                         && (last.value.modTime > 0 ==> t[p].mtime == last.value.modTime))
    && (last.Some? && last.value.state.Dir? ==> IsDir(t, p))
  }

  function Newest(account: string, space: string, events: seq<Event>, k: nat, p: string): Option<FileVersion>
    requires k <= |events|
  {
    LastAt(events[..k], Key(account, space, p))
  }

  ghost predicate RecordsMirror(account: string, space: string, events: seq<Event>, k: nat, records: Records)
    requires k <= |events|
  {
    forall p :: Remembers(records, p, Newest(account, space, events, k, p))
  }

  ghost predicate FilesMirror(account: string, space: string, chunks: map<string, Bytes>, events: seq<Event>, k: nat,
                              t: Tree)
    requires k <= |events|
  {
    forall p :: Shows(t, p, Newest(account, space, events, k, p), chunks)
  }

  /** What the server guarantees about the events of one space. */
  ghost predicate VersionSound(account: string, space: string, chunks: map<string, Bytes>, v: FileVersion) {
    v.account == account && v.space == space && IsClean(v.path) && KnownState(v.state)
    && (v.state.File? ==> Joinable(chunks, v.chunks, v.hash, v.size))
  }

  ghost predicate EventsSound(account: string, space: string, chunks: map<string, Bytes>, events: seq<Event>) {
    (forall i | 0 <= i < |events| :: VersionSound(account, space, chunks, events[i].version))
    && (forall i, j | 0 <= i < |events| && 0 <= j < |events|
                      && events[i].version.versionId == events[j].version.versionId ::
          events[i].version == events[j].version)
  }

  lemma {:induction false} LastAtMember(events: seq<Event>, k: nat, key: Key)
    requires k <= |events| && LastAt(events[..k], key).Some?
    ensures exists i :: 0 <= i < k && events[i].version == LastAt(events[..k], key).value
                        && KeyOf(events[i].version) == key
  {
    if KeyOf(events[k - 1].version) != key {
      assert events[..k][..k - 1] == events[..k - 1];
      LastAtMember(events, k - 1, key);
    }
  }

  lemma NewestStep(account: string, space: string, events: seq<Event>, k: nat, p: string)
    requires k < |events| && events[k].version.account == account && events[k].version.space == space
    ensures Newest(account, space, events, k + 1, p)
         == if events[k].version.path == p then Some(events[k].version) else Newest(account, space, events, k, p)
  {
    assert events[..k + 1][..k] == events[..k];
  }

  lemma JoinableMeans(chunks: map<string, Bytes>, v: FileVersion)
    requires Joinable(chunks, v.chunks, v.hash, v.size)
    ensures WholeFileOk(Assemble(chunks, v.chunks), v)
  {
  }

  /** What the records say about the files: the file at a path is the recorded one, a recorded directory is there,
      and no file is where none is recorded. */
  ghost predicate RecordsTell(records: Records, t: Tree) {
    (forall p :: IsFile(t, p) <==> p in records && records[p].state.File?)
    && (forall p | IsFile(t, p) :: !Diverged(t, p, records[p]))
    && (forall p | p in records && records[p].state.Dir? :: IsDir(t, p))
  }

  lemma MirrorsTell(account: string, space: string, chunks: map<string, Bytes>, events: seq<Event>, k: nat,
                    records: Records, t: Tree)
    requires k <= |events| && EventsSound(account, space, chunks, events)
    requires RecordsMirror(account, space, events, k, records) && FilesMirror(account, space, chunks, events, k, t)
    ensures RecordsTell(records, t)
  {
    hide Newest, Joinable;
    forall p
      ensures IsFile(t, p) <==> p in records && records[p].state.File?
      ensures IsFile(t, p) ==> !Diverged(t, p, records[p])
      ensures p in records && records[p].state.Dir? ==> IsDir(t, p)
    {
      var last := Newest(account, space, events, k, p);
      assert Remembers(records, p, last) && Shows(t, p, last, chunks);
      if last.Some? {
        NewestIsEvent(account, space, events, k, p);
        assert VersionSound(account, space, chunks, last.value);
        if last.value.state.File? { JoinableMeans(chunks, last.value); }
      }
    }
  }

  lemma FilesStep(account: string, space: string, chunks: map<string, Bytes>, events: seq<Event>, k: nat,
                  records: Records, t: Tree, t': Tree)
    requires k < |events| && events[k].version.account == account && events[k].version.space == space
    requires RecordsMirror(account, space, events, k, records) && FilesMirror(account, space, chunks, events, k, t)
    requires var v := events[k].version; FilesAfter(records, t, t', v.path, v, Assemble(chunks, v.chunks))
    ensures FilesMirror(account, space, chunks, events, k + 1, t')
  {
    hide Newest;
    var v, n := events[k].version, k + 1;
    forall p ensures Shows(t', p, Newest(account, space, events, n, p), chunks) {
      NewestStep(account, space, events, k, p);
      assert Shows(t, p, Newest(account, space, events, k, p), chunks);
      assert Remembers(records, p, Newest(account, space, events, k, p));
    }
  }

  lemma RecordsStep(account: string, space: string, events: seq<Event>, k: nat, records: Records, time: int)
    requires k < |events| && events[k].version.account == account && events[k].version.space == space
    requires RecordsMirror(account, space, events, k, records)
    ensures var v := events[k].version;
            RecordsMirror(account, space, events, k + 1, records[v.path := StateFromVersion(v, time)])
  {
    hide Newest;
    var v, n := events[k].version, k + 1;
    forall p ensures Remembers(records[v.path := StateFromVersion(v, time)], p, Newest(account, space, events, n, p)) {
      NewestStep(account, space, events, k, p);
      assert Remembers(records, p, Newest(account, space, events, k, p));
    }
  }

  /** The client as it is once the first `k` events were applied. */
  ghost predicate Mirrors(account: string, space: string, chunks: map<string, Bytes>, events: seq<Event>, k: nat,
                          c: Copy)
    requires k <= |events|
  {
    RecordsMirror(account, space, events, k, c.records) && FilesMirror(account, space, chunks, events, k, c.tree)
    && WellFormed(c.tree)
  }

  /** A version that is recorded already is the last event's version of its path: skipping it is right. */
  lemma SkippedIsLast(account: string, space: string, chunks: map<string, Bytes>, events: seq<Event>, k: nat, c: Copy)
    requires k < |events| && EventsSound(account, space, chunks, events)
             && Mirrors(account, space, chunks, events, k, c)
    requires IsRecorded(c.records, events[k].version.path, events[k].version)
    ensures Mirrors(account, space, chunks, events, k + 1, c)
  {
    hide Newest;
    var v, n := events[k].version, k + 1;
    assert VersionSound(account, space, chunks, v);
    var last := Newest(account, space, events, k, v.path);
    assert Remembers(c.records, v.path, last);
    NewestIsEvent(account, space, events, k, v.path);
    assert last == Some(v);
    forall p ensures Newest(account, space, events, n, p) == Newest(account, space, events, k, p) {
      NewestStep(account, space, events, k, p);
    }
    assert RecordsMirror(account, space, events, n, c.records) by {
      forall p ensures Remembers(c.records, p, Newest(account, space, events, n, p)) {
        assert Remembers(c.records, p, Newest(account, space, events, k, p));
      }
    }
    assert FilesMirror(account, space, chunks, events, n, c.tree) by {
      forall p ensures Shows(c.tree, p, Newest(account, space, events, n, p), chunks) {
        assert Shows(c.tree, p, Newest(account, space, events, k, p), chunks);
      }
    }
  }

  lemma NewestIsEvent(account: string, space: string, events: seq<Event>, k: nat, p: string)
    requires k <= |events| && Newest(account, space, events, k, p).Some?
    ensures exists i :: 0 <= i < k && events[i].version == Newest(account, space, events, k, p).value
                        && events[i].version.path == p
  {
    LastAtMember(events, k, Key(account, space, p));
  }

  // ---------------------------------------------------------------- one event

  /** An applicable version is applied, and only its own file changes. */
  lemma ApplyClear(c: Copy, device: string, v: FileVersion, env: Env)
    requires WellFormed(c.tree) && RecordsTell(c.records, c.tree) && KnownState(v.state)
    requires !IsRecorded(c.records, v.path, v) && Applicable(c, device, v, env)
    requires v.state.File? ==> env.fetched.Ok? && WholeFileOk(env.fetched.value, v)
    ensures var (t', done) := ApplyToFiles(c.tree, Known(c.records, v.path), v.path, device, v, env);
            done && FilesAfter(c.records, c.tree, t', v.path, v, if env.fetched.Ok? then env.fetched.value else [])
  {
    hide MoveAside, Download, WellFormed, LocalConflictName, MkdirAll;
    var t, rel, known := c.tree, v.path, Known(c.records, v.path);
    if v.state.Dir? {
      MkdirClear(c.records, t, rel, v);
    } else if v.state.Deleted? && TombstoneEntryState(v, known).Dir? {
    } else if IsDir(t, rel) && !known.state.Dir? {
      AsideClear(c.records, t, rel, device, env.stamp);
      var t1 := MoveAside(t, rel, device, env.stamp).0;
      if v.state.File? {
        DownloadClear(c.records, t1, rel, v, env);
        DownloadAfter(c.records, t, t1, Download(t1, rel, v, env).0, rel, v, env.fetched.value);
      }
    } else if v.state.File? {
      DownloadClear(c.records, t, rel, v, env);
    }
  }

  lemma MkdirClear(records: Records, t: Tree, rel: string, v: FileVersion)
    requires v.state.Dir? && !BlockedAbove(t, rel) && !IsFile(t, rel)
    ensures var (t', made) := MkdirAll(t, rel);
            made.Done? && FilesAfter(records, t, t', rel, v, [])
  {
  }

  /** Something recorded is no longer there. */
  ghost predicate Misses(records: Records, t: Tree, rel: string) {
    exists q :: q != rel && q in records && (records[q].state.File? || records[q].state.Dir?) && q !in t
  }

  lemma BlockedFails(c: Copy, device: string, v: FileVersion, env: Env)
    requires WellFormed(c.tree) && RecordsTell(c.records, c.tree) && KnownState(v.state) && BlockedAbove(c.tree, v.path)
    ensures !ApplyToFiles(c.tree, Known(c.records, v.path), v.path, device, v, env).1
  {
  }

  lemma BlockedMake(t: Tree, dirs: set<string>, d: string)
    requires d in dirs && IsFile(t, d)
    ensures MakeDirs(t, dirs) == (t, Failed)
  {
  }

  /** A directory that cannot be moved aside, or takes something recorded with it. */
  lemma AsideFails(records: Records, t: Tree, rel: string, device: string, stamp: Stamp)
    requires WellFormed(t) && RecordsTell(records, t) && IsDir(t, rel)
    requires !(Vacant(records, rel) && LocalConflictName(rel, device, stamp) !in t)
    ensures var (t', done) := MoveAside(t, rel, device, stamp);
            done ==>
              rel !in t'
              && exists q :: Under(q, rel) && q in records && (records[q].state.File? || records[q].state.Dir?)
                             && q !in t'
  {
    var copy := LocalConflictName(rel, device, stamp);
    CopySharesParents(rel, device, stamp);
    hide LocalConflictName, MoveTree, RecordsTell;
    ParentsThere(t, copy);
    if MoveAside(t, rel, device, stamp).1 {
      assert copy !in t;
      var q :| q in records && Under(q, rel) && (records[q].state.File? || records[q].state.Dir?);
      MovedAt(t, rel, copy, q);
      MovedAt(t, rel, copy, rel);
    }
  }

  /** A version that is not applicable fails, or takes away what is recorded. */
  lemma InapplicableFails(c: Copy, device: string, v: FileVersion, env: Env)
    requires WellFormed(c.tree) && RecordsTell(c.records, c.tree) && KnownState(v.state)
             && !Applicable(c, device, v, env)
    ensures var (t', done) := ApplyToFiles(c.tree, Known(c.records, v.path), v.path, device, v, env);
            done ==> Misses(c.records, t', v.path)
  {
    hide MoveAside, Download, WellFormed, LocalConflictName, MakeDirs, Vacant;
    var t, rel, known := c.tree, v.path, Known(c.records, v.path);
    if BlockedAbove(t, rel) {
      BlockedFails(c, device, v, env);
    } else if v.state.Dir? {
      BlockedMake(t, Above(rel) + {rel}, rel);
    } else if known.state.Dir? {
      if v.state.File? { DownloadOverDirFails(t, rel, v, env); }
    } else {
      AsideFails(c.records, t, rel, device, env.stamp);
      var (t1, aside) := MoveAside(t, rel, device, env.stamp);
      if v.state.File? && aside {
        var q :| Under(q, rel) && q in c.records && (c.records[q].state.File? || c.records[q].state.Dir?) && q !in t1;
        DownloadAddsAbove(t1, rel, v, env, q);
      }
    }
  }

  lemma DownloadOverDirFails(t: Tree, rel: string, v: FileVersion, env: Env)
    requires IsDir(t, rel)
    ensures !Download(t, rel, v, env).1
  {
  }

  lemma DownloadAddsAbove(t: Tree, rel: string, v: FileVersion, env: Env, q: string)
    requires Under(q, rel) && q !in t
    ensures q !in Download(t, rel, v, env).0
  {
  }

  lemma MissesNotMirrored(account: string, space: string, chunks: map<string, Bytes>, events: seq<Event>, k: nat,
                          c: Copy, t': Tree)
    requires k < |events| && EventsSound(account, space, chunks, events)
             && RecordsMirror(account, space, events, k, c.records)
    requires Misses(c.records, t', events[k].version.path)
    ensures !FilesMirror(account, space, chunks, events, k + 1, t')
  {
    hide Newest;
    var v, n := events[k].version, k + 1;
    assert VersionSound(account, space, chunks, v);
    var q :| q != v.path && q in c.records && (c.records[q].state.File? || c.records[q].state.Dir?) && q !in t';
    NewestStep(account, space, events, k, q);
    assert Remembers(c.records, q, Newest(account, space, events, k, q));
    assert !Shows(t', q, Newest(account, space, events, n, q), chunks);
  }

  /** The next event is applied, and the client then mirrors one more event, if and only if the version is
      applicable. */
  lemma ApplyMirrors(account: string, space: string, chunks: map<string, Bytes>, events: seq<Event>, k: nat, c: Copy,
                     device: string, env: Env)
    requires k < |events| && EventsSound(account, space, chunks, events)
             && Mirrors(account, space, chunks, events, k, c)
    requires var v := events[k].version;
             v.state.File? && !IsRecorded(c.records, v.path, v) ==> env.fetched == Ok(Assemble(chunks, v.chunks))
    ensures var (c', done) := ApplyVersion(c, device, events[k].version, env);
            c'.cursor == c.cursor
            && (Applicable(c, device, events[k].version, env)
                <==> done && Mirrors(account, space, chunks, events, k + 1, c'))
  {
    hide Newest, ApplyToFiles, Joinable, Remembers, Shows, WellFormed, Applicable, RecordsTell, Misses, FilesAfter;
    hide IsClean, CleanRel;
    var v := events[k].version;
    var known := Known(c.records, v.path);
    assert VersionSound(account, space, chunks, v);
    CleanRelFixpoint(v.path);
    if IsRecorded(c.records, v.path, v) {
      SkippedIsLast(account, space, chunks, events, k, c);
      RecordedApplicable(c, device, v, env);
    } else {
      MirrorsTell(account, space, chunks, events, k, c.records, c.tree);
      if v.state.File? { JoinableMeans(chunks, v); }
      var t' := ApplyToFiles(c.tree, known, v.path, device, v, env).0;
      if Applicable(c, device, v, env) {
        ApplyClear(c, device, v, env);
        AfterWithContent(c.records, c.tree, t', v, env, Assemble(chunks, v.chunks));
        ApplyWellFormed(c.tree, known, v.path, device, v, env);
        FilesStep(account, space, chunks, events, k, c.records, c.tree, t');
        RecordsStep(account, space, events, k, c.records, env.now);
      } else {
        InapplicableFails(c, device, v, env);
        if Misses(c.records, t', v.path) { MissesNotMirrored(account, space, chunks, events, k, c, t'); }
      }
    }
  }

  lemma RecordedApplicable(c: Copy, device: string, v: FileVersion, env: Env)
    requires IsRecorded(c.records, v.path, v)
    ensures Applicable(c, device, v, env)
  {
  }

  lemma AfterWithContent(records: Records, t: Tree, t': Tree, v: FileVersion, env: Env, content: Bytes)
    requires FilesAfter(records, t, t', v.path, v, if env.fetched.Ok? then env.fetched.value else [])
    requires v.state.File? ==> env.fetched == Ok(content)
    ensures FilesAfter(records, t, t', v.path, v, content)
  {
  }

  lemma SameFilesMirror(account: string, space: string, chunks: map<string, Bytes>, events: seq<Event>, k: nat,
                        records: Records, t: Tree, t': Tree, rel: string)
    requires k <= |events| && RecordsMirror(account, space, events, k, records)
             && FilesMirror(account, space, chunks, events, k, t)
    requires SameFiles(records, t, t', rel) && !Known(records, rel).state.Dir?
    ensures FilesMirror(account, space, chunks, events, k, t')
  {
  }

  lemma FailedDownload(records: Records, t: Tree, rel: string, v: FileVersion, env: Env)
    requires env.fetched.Err? && forall d | d in Above(rel) :: !IsFile(t, d)
    ensures var (t', done) := Download(t, rel, v, env);
            !done && SameFiles(records, t, t', rel)
  {
  }

  /** A file whose chunks do not come through leaves all files and recorded directories as they were. */
  lemma FailedClear(c: Copy, device: string, v: FileVersion, env: Env)
    requires WellFormed(c.tree) && RecordsTell(c.records, c.tree) && v.state.File? && env.fetched.Err?
    requires !IsRecorded(c.records, v.path, v) && Applicable(c, device, v, env)
    ensures var (t', done) := ApplyToFiles(c.tree, Known(c.records, v.path), v.path, device, v, env);
            !done && SameFiles(c.records, c.tree, t', v.path) && !Known(c.records, v.path).state.Dir?
  {
    hide MoveAside, Download, WellFormed, LocalConflictName;
    var t, rel := c.tree, v.path;
    if IsDir(t, rel) {
      AsideClear(c.records, t, rel, device, env.stamp);
      FailedDownload(c.records, MoveAside(t, rel, device, env.stamp).0, rel, v, env);
    } else {
      FailedDownload(c.records, t, rel, v, env);
    }
  }

  /** A download that fails leaves the client mirroring the events before, whatever was moved aside or made. */
  lemma FailedFetch(account: string, space: string, chunks: map<string, Bytes>, events: seq<Event>, k: nat, c: Copy,
                    device: string, env: Env)
    requires k < |events| && EventsSound(account, space, chunks, events)
             && Mirrors(account, space, chunks, events, k, c)
    requires var v := events[k].version;
             v.state.File? && env.fetched.Err? && !IsRecorded(c.records, v.path, v) && Applicable(c, device, v, env)
    ensures var (c', done) := ApplyVersion(c, device, events[k].version, env);
            !done && Mirrors(account, space, chunks, events, k, c') && c'.cursor == c.cursor
  {
    hide Newest, ApplyToFiles, Joinable, Remembers, Shows, WellFormed, Applicable, RecordsTell, SameFiles;
    hide IsClean, CleanRel;
    var v := events[k].version;
    assert VersionSound(account, space, chunks, v);
    CleanRelFixpoint(v.path);
    MirrorsTell(account, space, chunks, events, k, c.records, c.tree);
    FailedClear(c, device, v, env);
    ApplyWellFormed(c.tree, Known(c.records, v.path), v.path, device, v, env);
    SameFilesMirror(account, space, chunks, events, k, c.records, c.tree,
                    ApplyToFiles(c.tree, Known(c.records, v.path), v.path, device, v, env).0, v.path);
  }

  // ---------------------------------------------------------------- the events of one pull

  predicate NoneOwn(device: string, root: string, events: seq<Event>) {
    forall i | 0 <= i < |events| :: !OwnEvent(device, root, events[i])
  }

  /** Each download of events `k` to `m`, as far as the pull came, failed or brought the version's content. */
  predicate Brought(chunks: map<string, Bytes>, events: seq<Event>, k: nat, m: nat, envs: seq<Env>)
    requires k <= m <= |events|
  {
    forall i | k <= i < m && i - k < |envs| && events[i].version.state.File? ::
      envs[i - k].fetched.Err? || envs[i - k].fetched == Ok(Assemble(chunks, events[i].version.chunks))
  }

  /** Nobody cancelled the pull and no download failed. */
  predicate Undisturbed(events: seq<Event>, envs: seq<Env>) {
    |events| <= |envs| && forall i | 0 <= i < |events| && events[i].version.state.File? :: envs[i].fetched.Ok?
  }

  /** How many of the events the pull gets behind it. */
  function Passed(c: Copy, device: string, root: string, events: seq<Event>, envs: seq<Env>): nat
    decreases |events|
  {
    if events == [] || envs == [] then 0
    else if OwnEvent(device, root, events[0]) then
      1 + Passed(Advance(c, events[0]), device, root, events[1..], envs[1..])
    else
      var (c1, done) := ApplyVersion(c, device, events[0].version, envs[0]);
      if done then 1 + Passed(Advance(c1, events[0]), device, root, events[1..], envs[1..]) else 0
  }

  /** Each version is applicable when its turn comes. */
  predicate AllApplicable(c: Copy, device: string, root: string, events: seq<Event>, envs: seq<Env>)
    decreases |events|
  {
    if events == [] || envs == [] then true
    else if OwnEvent(device, root, events[0]) then
      AllApplicable(Advance(c, events[0]), device, root, events[1..], envs[1..])
    else
      Applicable(c, device, events[0].version, envs[0])
      && var (c1, done) := ApplyVersion(c, device, events[0].version, envs[0]);
         done ==> AllApplicable(Advance(c1, events[0]), device, root, events[1..], envs[1..])
  }

  lemma BroughtRest(chunks: map<string, Bytes>, events: seq<Event>, k: nat, m: nat, envs: seq<Env>)
    requires k < m <= |events| && Brought(chunks, events, k, m, envs) && envs != []
    ensures Brought(chunks, events, k + 1, m, envs[1..])
    ensures Undisturbed(events[k..m], envs) ==> Undisturbed(events[k + 1..m], envs[1..])
  {
  }

  /** One event of a pull: it is passed, or its download failed. */
  lemma EventMirrors(account: string, space: string, chunks: map<string, Bytes>, events: seq<Event>, k: nat, c: Copy,
                     device: string, env: Env)
    requires k < |events| && EventsSound(account, space, chunks, events)
             && Mirrors(account, space, chunks, events, k, c)
    requires Applicable(c, device, events[k].version, env)
    requires var v := events[k].version;
             v.state.File? ==> env.fetched.Err? || env.fetched == Ok(Assemble(chunks, v.chunks))
    ensures var (c', done) := ApplyVersion(c, device, events[k].version, env);
            Mirrors(account, space, chunks, events, if done then k + 1 else k, c') && c'.cursor == c.cursor
            && (!done ==> events[k].version.state.File? && env.fetched.Err?)
  {
    hide Mirrors, EventsSound, ApplyVersion, Applicable, Assemble;
    var v := events[k].version;
    if v.state.File? && env.fetched.Err? && !IsRecorded(c.records, v.path, v) {
      FailedFetch(account, space, chunks, events, k, c, device, env);
    } else {
      ApplyMirrors(account, space, chunks, events, k, c, device, env);
    }
  }

  /** Wherever a pull over events `k` to `m` is cut short, by a failed download or because it was cancelled, the client
      mirrors just the events it has behind it, and the cursor stands there. */
  lemma {:induction false} EventsMirror(account: string, space: string, chunks: map<string, Bytes>, events: seq<Event>,
                                        k: nat, m: nat, c: Copy, device: string, root: string, envs: seq<Env>)
    requires k <= m <= |events| && EventsSound(account, space, chunks, events) && Ascending(events)
    requires NoneOwn(device, root, events) && Brought(chunks, events, k, m, envs)
    requires Mirrors(account, space, chunks, events, k, c) && c.cursor == CursorAfter(events, k)
    requires AllApplicable(c, device, root, events[k..m], envs)
    ensures var n := k + Passed(c, device, root, events[k..m], envs);
            var (c', done) := PullEvents(c, device, root, events[k..m], envs);
            n <= m && Mirrors(account, space, chunks, events, n, c') && c'.cursor == CursorAfter(events, n)
            && (done <==> n == m) && (Undisturbed(events[k..m], envs) ==> done)
    decreases m - k
  {
    hide Mirrors, EventsSound, ApplyVersion, Applicable, Undisturbed, Brought, Assemble;
    if k == m {
      assert events[k..m] == [];
    } else if envs == [] {
      assert !Undisturbed(events[k..m], envs) by { SomeMissing(events[k..m], envs); }
    } else {
      var e := events[k];
      assert events[k..m][0] == e && events[k..m][1..] == events[k + 1..m];
      FirstBrought(chunks, events, k, m, envs);
      EventMirrors(account, space, chunks, events, k, c, device, envs[0]);
      var (c1, passed) := ApplyVersion(c, device, e.version, envs[0]);
      if passed {
        AdvanceMirrors(account, space, chunks, events, k + 1, c1, e);
        assert Advance(c1, e).cursor == e.seqNo by { if k > 0 { assert events[k - 1].seqNo <= e.seqNo; } }
        BroughtRest(chunks, events, k, m, envs);
        EventsMirror(account, space, chunks, events, k + 1, m, Advance(c1, e), device, root, envs[1..]);
      }
    }
  }

  lemma SomeMissing(events: seq<Event>, envs: seq<Env>)
    requires |envs| < |events|
    ensures !Undisturbed(events, envs)
  {
  }

  lemma FirstBrought(chunks: map<string, Bytes>, events: seq<Event>, k: nat, m: nat, envs: seq<Env>)
    requires k < m <= |events| && Brought(chunks, events, k, m, envs) && envs != []
    ensures var v, fetched := events[k].version, envs[0].fetched;
            v.state.File? ==>
              (fetched.Err? || fetched == Ok(Assemble(chunks, v.chunks)))
              && (Undisturbed(events[k..m], envs) ==> fetched.Ok?)
  {
  }

  lemma AdvanceMirrors(account: string, space: string, chunks: map<string, Bytes>, events: seq<Event>, k: nat, c: Copy,
                       e: Event)
    requires k <= |events| && Mirrors(account, space, chunks, events, k, c)
    ensures Mirrors(account, space, chunks, events, k, Advance(c, e))
  {
  }

  // ---------------------------------------------------------------- the cleanup

  /** Removing paths of deleted directories, however far it gets, takes no file and no recorded directory. */
  lemma {:induction false} RemovingTells(records: Records, t: Tree, order: seq<string>)
    requires WellFormed(t) && forall d | d in order :: d in DeletedDirs(records) && !IsFile(t, d)
    ensures var t' := RemoveEach(t, order).0;
            WellFormed(t') && (forall p :: IsFile(t', p) <==> IsFile(t, p))
              && (forall p | IsFile(t, p) :: t'[p] == t[p])
            && (forall d | d in records && records[d].state.Dir? && IsDir(t, d) :: IsDir(t', d))
    decreases |order|
  {
    if order != [] {
      var d := order[0];
      assert d in DeletedDirs(records) && !IsFile(t, d);
      RemoveWellFormed(t, d);
      var t1 := Remove(t, d).0;
      hide WellFormed;
      RemovingTells(records, t1, order[1..]);
    }
  }

  predicate LiveFileAt(account: string, space: string, events: seq<Event>, k: nat, p: string)
    requires k <= |events|
  {
    var last := Newest(account, space, events, k, p);
    last.Some? && last.value.state.File?
  }

  predicate LiveDirAt(account: string, space: string, events: seq<Event>, k: nat, p: string)
    requires k <= |events|
  {
    var last := Newest(account, space, events, k, p);
    last.Some? && last.value.state.Dir?
  }

  predicate GoneDirAt(account: string, space: string, events: seq<Event>, k: nat, p: string)
    requires k <= |events|
  {
    var last := Newest(account, space, events, k, p);
    last.Some? && last.value.state.Deleted? && last.value.deletedState.Dir?
  }

  lemma RecordsLive(account: string, space: string, events: seq<Event>, k: nat, records: Records, p: string)
    requires k <= |events| && RecordsMirror(account, space, events, k, records)
    ensures LiveFileAt(account, space, events, k, p) <==> p in records && records[p].state.File?
    ensures LiveDirAt(account, space, events, k, p) <==> p in records && records[p].state.Dir?
    ensures GoneDirAt(account, space, events, k, p) <==> p in DeletedDirs(records)
  {
  }

  /** The path of a deleted directory lies below a live file. */
  predicate LogCutOff(account: string, space: string, events: seq<Event>, k: nat)
    requires k <= |events|
  {
    exists i, j | 0 <= i < k && 0 <= j < k ::
      Under(events[i].version.path, events[j].version.path)
      && GoneDirAt(account, space, events, k, events[i].version.path)
      && LiveFileAt(account, space, events, k, events[j].version.path)
  }

  /** A path of a deleted directory lies below a regular file. */
  predicate CutOff(c: Copy) { exists d :: d in DeletedDirs(c.records) && BlockedAbove(c.tree, d) }

  /** The cleanup keeps the mirror, and succeeds if and only if no deleted directory lies below a file. */
  lemma CleanupMirrors(account: string, space: string, chunks: map<string, Bytes>, events: seq<Event>, k: nat, c: Copy,
                       order: seq<string>)
    requires k <= |events| && EventsSound(account, space, chunks, events)
             && Mirrors(account, space, chunks, events, k, c)
    requires LongestFirst(order) && SetOf(order) == DeletedDirs(c.records)
    ensures var (t', done) := RemoveEach(c.tree, order);
            Mirrors(account, space, chunks, events, k, c.(tree := t'))
            && (done <==> !CutOff(c)) && CutOff(c.(tree := t')) == CutOff(c)
  {
    hide Newest, WellFormed, Diverged, RemoveEach, LongestFirst;
    MirrorsTell(account, space, chunks, events, k, c.records, c.tree);
    assert forall d | d in order :: d in SetOf(order);
    RemovingTells(c.records, c.tree, order);
    AnyOrderCleans(c.tree, order);
    var t' := RemoveEach(c.tree, order).0;
    forall p ensures Shows(t', p, Newest(account, space, events, k, p), chunks) {
      assert Shows(c.tree, p, Newest(account, space, events, k, p), chunks);
      assert Remembers(c.records, p, Newest(account, space, events, k, p));
    }
    StuckIsCutOff(c, order);
    forall d ensures BlockedAbove(t', d) == BlockedAbove(c.tree, d) { SameBlocks(c.tree, t', d); }
  }

  /** The log tells whether a cleanup can succeed. */
  lemma CutOffOnLog(account: string, space: string, chunks: map<string, Bytes>, events: seq<Event>, k: nat, c: Copy)
    requires k <= |events| && Mirrors(account, space, chunks, events, k, c)
    ensures CutOff(c) <==> LogCutOff(account, space, events, k)
  {
    hide Newest, LiveFileAt, GoneDirAt, DeletedDirs, WellFormed;
    forall p
      ensures GoneDirAt(account, space, events, k, p) <==> p in DeletedDirs(c.records)
      ensures LiveFileAt(account, space, events, k, p) <==> IsFile(c.tree, p)
      ensures GoneDirAt(account, space, events, k, p) || LiveFileAt(account, space, events, k, p) ==>
                exists i :: 0 <= i < k && events[i].version.path == p
    {
      RecordsLive(account, space, events, k, c.records, p);
      FileShown(account, space, chunks, events, k, c.tree, p);
      if GoneDirAt(account, space, events, k, p) || LiveFileAt(account, space, events, k, p) {
        KnownToLog(account, space, events, k, p);
      }
    }
    if CutOff(c) {
      var d :| d in DeletedDirs(c.records) && BlockedAbove(c.tree, d);
      var e :| e in Above(d) && IsFile(c.tree, e);
      AboveIsUnder(d, e);
      var i, j :| 0 <= i < k && events[i].version.path == d && 0 <= j < k && events[j].version.path == e;
    }
    if LogCutOff(account, space, events, k) {
      var i, j :| 0 <= i < k && 0 <= j < k && Under(events[i].version.path, events[j].version.path)
          && GoneDirAt(account, space, events, k, events[i].version.path)
          && LiveFileAt(account, space, events, k, events[j].version.path);
      AboveIsUnder(events[i].version.path, events[j].version.path);
    }
  }

  lemma FileShown(account: string, space: string, chunks: map<string, Bytes>, events: seq<Event>, k: nat, t: Tree,
                  p: string)
    requires k <= |events| && FilesMirror(account, space, chunks, events, k, t)
    ensures LiveFileAt(account, space, events, k, p) <==> IsFile(t, p)
  {
  }

  lemma KnownToLog(account: string, space: string, events: seq<Event>, k: nat, p: string)
    requires k <= |events|
    requires GoneDirAt(account, space, events, k, p) || LiveFileAt(account, space, events, k, p)
    ensures exists i :: 0 <= i < k && events[i].version.path == p
  {
    hide Newest;
    NewestIsEvent(account, space, events, k, p);
  }

  lemma SameBlocks(t: Tree, t': Tree, p: string)
    requires forall d :: IsFile(t', d) <==> IsFile(t, d)
    ensures BlockedAbove(t', p) == BlockedAbove(t, p)
  {
  }

  lemma StuckIsCutOff(c: Copy, order: seq<string>)
    requires WellFormed(c.tree) && SetOf(order) == DeletedDirs(c.records)
    ensures CutOff(c) <==> exists i :: 0 <= i < |order| && Stuck(c.tree, order[i])
  {
  }

  // ---------------------------------------------------------------- what the server contributes

  lemma LogSound(s: Server, account: string, space: string)
    requires Inv(s)
    ensures EventsSound(account, space, s.chunks, SpaceLog(s.log, account, space))
    ensures Numbered(s.log)
  {
    hide UniqueVersionIds, FilesOk, ReplayOk, ContentOk, OpsOk, Joinable, IsClean, Follows, Starts, SpaceLog;
    var events := SpaceLog(s.log, account, space);
    SpaceLogEvents(s.log, account, space);
    forall i | 0 <= i < |events| ensures VersionSound(account, space, s.chunks, events[i].version) {
      StoredSound(s, events[i]);
    }
    forall i, j | 0 <= i < |events| && 0 <= j < |events| && events[i].version.versionId == events[j].version.versionId
      ensures events[i].version == events[j].version
    {
      SameVersion(s.versions, events[i].version, events[j].version);
    }
  }

  lemma StoredSound(s: Server, e: Event)
    requires HistoriesOk(s.versions, s.nextId) && LogOk(s.log, s.versions) && ContentOk(s.versions, s.chunks, s.grants)
    requires e in s.log
    ensures InHistory(s.versions, e.version)
    ensures IsClean(e.version.path) && KnownState(e.version.state)
    ensures e.version.state.File? ==> Available(s.chunks, s.grants, e.version)
  {
  }

  lemma SameVersion(versions: map<Id, seq<FileVersion>>, a: FileVersion, b: FileVersion)
    requires UniqueVersionIds(versions) && InHistory(versions, a) && InHistory(versions, b)
             && a.versionId == b.versionId
    ensures a == b
  {
  }

  /** As far as the pull came, the chunks of each file event were fetched from the server as it was at some time
      after it answered, or fetching them failed. */
  ghost predicate Served(s: Server, account: string, events: seq<Event>, envs: seq<Env>) {
    forall i | 0 <= i < |events| && i < |envs| && events[i].version.state.File? ::
      envs[i].fetched.Err? || FetchedLater(s, account, events[i].version, envs[i].fetched)
  }

  ghost predicate FetchedLater(s: Server, account: string, v: FileVersion, fetched: Result<Bytes>) {
    exists later :: Inv(later) && Grows(s, later) && fetched == FetchFrom(later, account, v.chunks, 0, [])
  }

  /** Whenever they are fetched, the chunks of a logged file are its content. */
  lemma FetchedContent(s: Server, z: Server, account: string, space: string, e: Event, fetched: Result<Bytes>)
    requires Inv(s) && Grows(s, z) && e in s.log && e.version.state.File? && e.version.account == account
    requires FetchedLater(s, account, e.version, fetched)
    ensures fetched == Ok(Assemble(z.chunks, e.version.chunks))
  {
    hide HistoriesOk, UniqueVersionIds, FilesOk, WindowOk, ReplayOk, OpsOk, LogOk, ContentOk, FetchFrom;
    var v := e.version;
    var later :| Inv(later) && Grows(s, later) && fetched == FetchFrom(later, account, v.chunks, 0, []);
    StoredSound(s, e);
    InHistoryGrows(s.versions, later.versions, v);
    var i :| 0 <= i < |later.versions[v.fileId]| && later.versions[v.fileId][i] == v;
    DownloadCannotFail(later, v.fileId, i);
    AssembleStable(s.chunks, later.chunks, v.chunks);
    AssembleStable(s.chunks, z.chunks, v.chunks);
  }

  // ---------------------------------------------------------------- pulling in batches

  /** One pull and how it ended: the server that answered, what downloading brought, the client afterwards. */
  datatype Pull = Pull(server: Server, envs: seq<Env>, after: Copy, done: bool)

  datatype Who = Who(account: string, space: string, device: string, root: string)

  /** The pull starts from `c`, within the server's window; what it downloads is served or fails. */
  ghost predicate IsPull(who: Who, c: Copy, p: Pull) {
    Inv(p.server) && c.cursor >= p.server.lastSeq - |p.server.events|
    && var answer := EventsAfter(p.server, who.account, who.space, c.cursor);
       Served(p.server, who.account, answer, p.envs)
       && PullEnds(c, who.device, who.root, answer, p.envs, p.after, p.done)
  }

  /** The client wrote none of the events of `z`. */
  ghost predicate Passive(who: Who, z: Server) {
    Inv(z) && NoneOwn(who.device, who.root, SpaceLog(z.log, who.account, who.space))
  }

  /** Each version of the pull is applicable when its turn comes. */
  predicate Unobstructed(who: Who, c: Copy, p: Pull) {
    AllApplicable(c, who.device, who.root, SortBySeq(EventsAfter(p.server, who.account, who.space, c.cursor)), p.envs)
  }

  /** The client has applied just the first `k` events of the space, seen against the later server `z`. */
  ghost predicate CaughtUp(who: Who, z: Server, k: nat, c: Copy) {
    var events := SpaceLog(z.log, who.account, who.space);
    k <= |events| && Mirrors(who.account, who.space, z.chunks, events, k, c) && c.cursor == CursorAfter(events, k)
  }

  function EventCount(who: Who, s: Server): nat { |SpaceLog(s.log, who.account, who.space)| }

  /** The answer is what is left of the space's events. */
  lemma AnswerIsRest(who: Who, z: Server, s: Server, k: nat, cursor: nat)
    requires Inv(s) && Inv(z) && s.log <= z.log && k <= EventCount(who, s) && cursor >= s.lastSeq - |s.events|
    requires var events := SpaceLog(z.log, who.account, who.space); k <= |events| && cursor == CursorAfter(events, k)
    ensures var events := SpaceLog(z.log, who.account, who.space);
            EventCount(who, s) <= |events|
            && EventsAfter(s, who.account, who.space, cursor) == events[k..EventCount(who, s)]
            && forall i | k <= i < EventCount(who, s) :: events[i] in s.log
  {
    hide HistoriesOk, UniqueVersionIds, FilesOk, LogOk, ContentOk, OpsOk, ReplayOk, ChunksOk, DistinctFileIds,
         FilterEvents;
    var own := SpaceLog(s.log, who.account, who.space);
    var events := SpaceLog(z.log, who.account, who.space);
    SpaceLogGrows(s.log, z.log, who.account, who.space);
    SpaceLogEvents(s.log, who.account, who.space);
    WindowRefinesLog(s, who.account, who.space, cursor);
    assert forall i | 0 <= i < |own| :: own[i] == events[i];
    assert CursorAfter(own, k) == cursor;
    SelectRest(s.log, who.account, who.space, k);
    assert own[k..] == events[k..|own|];
  }

  lemma RestAscending(events: seq<Event>, k: nat, m: nat)
    requires Ascending(events) && k <= m <= |events|
    ensures SortBySeq(events[k..m]) == events[k..m]
  {
    SortedStay(events[k..m]);
  }

  lemma DownloadsBrought(who: Who, z: Server, s: Server, k: nat, envs: seq<Env>)
    requires Inv(s) && Grows(s, z)
    requires var events := SpaceLog(z.log, who.account, who.space);
             k <= EventCount(who, s) <= |events|
             && (forall i | k <= i < EventCount(who, s) ::
                   events[i] in s.log && events[i].version.account == who.account)
             && Served(s, who.account, events[k..EventCount(who, s)], envs)
    ensures var events := SpaceLog(z.log, who.account, who.space);
            Brought(z.chunks, events, k, EventCount(who, s), envs)
  {
    hide Inv, Grows, SpaceLog, FetchedLater, EventCount;
    var events, m := SpaceLog(z.log, who.account, who.space), EventCount(who, s);
    forall i | k <= i < m && i - k < |envs| && events[i].version.state.File? && envs[i - k].fetched.Ok?
      ensures envs[i - k].fetched == Ok(Assemble(z.chunks, events[i].version.chunks))
    {
      assert events[k..m][i - k] == events[i];
      FetchedContent(s, z, who.account, who.space, events[i], envs[i - k].fetched);
    }
  }

  /** How many events of the space are behind the client after a pull that started behind the first `k`. */
  function Behind(who: Who, k: nat, c: Copy, p: Pull): nat {
    k + Passed(c, who.device, who.root, SortBySeq(EventsAfter(p.server, who.account, who.space, c.cursor)), p.envs)
  }

  /** Nobody cancelled the pull and no download of it failed. */
  predicate Uninterrupted(who: Who, c: Copy, p: Pull) {
    Undisturbed(EventsAfter(p.server, who.account, who.space, c.cursor), p.envs)
  }

  /** The path of a deleted directory lies below a live file of the server. */
  predicate ServerCutOff(who: Who, s: Server) {
    LogCutOff(who.account, who.space, SpaceLog(s.log, who.account, who.space), EventCount(who, s))
  }

  lemma LogCutOffInPrefix(account: string, space: string, a: seq<Event>, b: seq<Event>)
    requires a <= b
    ensures LogCutOff(account, space, a, |a|) == LogCutOff(account, space, b, |a|)
  {
    hide LastAt;
    assert a[..|a|] == b[..|a|];
  }

  /** The loop of one pull over applicable versions: the client is caught up with the events behind it, which are
      all of the answering server unless the pull was cancelled or a download failed. */
  lemma PullLoop(who: Who, z: Server, k: nat, c: Copy, p: Pull)
    requires Passive(who, z) && Grows(p.server, z) && CaughtUp(who, z, k, c) && k <= EventCount(who, p.server)
    requires IsPull(who, c, p) && Unobstructed(who, c, p)
    ensures var answer := SortBySeq(EventsAfter(p.server, who.account, who.space, c.cursor));
            var (c1, passed) := PullEvents(c, who.device, who.root, answer, p.envs);
            var n := Behind(who, k, c, p);
            n <= EventCount(who, p.server) && CaughtUp(who, z, n, c1) && (passed <==> n == EventCount(who, p.server))
            && (Uninterrupted(who, c, p) ==> passed)
  {
    hide Inv, EventsSound, Mirrors, SpaceLog, PullEvents, PullEnds, Passed, Served, EventsAfter, EventCount,
         AllApplicable, Undisturbed, Brought, SortBySeq, NoneOwn, Ascending, CursorAfter;
    var events, m := SpaceLog(z.log, who.account, who.space), EventCount(who, p.server);
    LogSound(z, who.account, who.space);
    SpaceLogEvents(z.log, who.account, who.space);
    AnswerIsRest(who, z, p.server, k, c.cursor);
    RestAscending(events, k, m);
    DownloadsBrought(who, z, p.server, k, p.envs);
    EventsMirror(who.account, who.space, z.chunks, events, k, m, c, who.device, who.root, p.envs);
  }

  /** One pull whose versions are applicable, cut short or not: the client is caught up with the events it got behind
      it.  It reports success exactly if these are all the events of the server that answered, as they are unless the
      pull was cancelled or a download failed, and no deleted directory's path lies below a live file there. */
  lemma OnePull(who: Who, z: Server, k: nat, c: Copy, p: Pull)
    requires Passive(who, z) && Grows(p.server, z) && CaughtUp(who, z, k, c) && k <= EventCount(who, p.server)
    requires IsPull(who, c, p) && Unobstructed(who, c, p)
    ensures var n := Behind(who, k, c, p);
            k <= n <= EventCount(who, p.server) && CaughtUp(who, z, n, p.after)
            && (p.done <==> n == EventCount(who, p.server) && !ServerCutOff(who, p.server))
            && (Uninterrupted(who, c, p) ==> n == EventCount(who, p.server))
  {
    hide Inv, EventsSound, Mirrors, SpaceLog, PullEvents, Passed, Served, EventsAfter, RemoveEach, EventCount,
         AllApplicable, CutOff, LogCutOff, Undisturbed, LongestFirst, DeletedDirs;
    var events, m := SpaceLog(z.log, who.account, who.space), EventCount(who, p.server);
    PullLoop(who, z, k, c, p);
    var answer := SortBySeq(EventsAfter(p.server, who.account, who.space, c.cursor));
    var (c1, passed) := PullEvents(c, who.device, who.root, answer, p.envs);
    if passed {
      LogSound(z, who.account, who.space);
      var order :| LongestFirst(order) && SetOf(order) == DeletedDirs(c1.records)
                   && (p.after.tree, p.done) == RemoveEach(c1.tree, order);
      CleanupMirrors(who.account, who.space, z.chunks, events, m, c1, order);
      CutOffOnLog(who.account, who.space, z.chunks, events, m, c1);
      ServerCutOffLater(who, p.server, z);
    }
  }

  lemma ServerCutOffLater(who: Who, s: Server, z: Server)
    requires Grows(s, z)
    ensures EventCount(who, s) <= EventCount(who, z)
    ensures ServerCutOff(who, s)
       <==> LogCutOff(who.account, who.space, SpaceLog(z.log, who.account, who.space), EventCount(who, s))
  {
    hide SpaceLog, LogCutOff;
    SpaceLogGrows(s.log, z.log, who.account, who.space);
    LogCutOffInPrefix(who.account, who.space, SpaceLog(s.log, who.account, who.space),
                      SpaceLog(z.log, who.account, who.space));
  }

  // ---------------------------------------------------------------- the live files

  /** The content of the live files of a space. */
  function LiveContents(s: Server, account: string, space: string): map<string, Bytes> {
    var live := LiveFiles(s.files);
    map key | key in live && key.account == account && key.space == space && live[key].state.File? ::
      key.name := Assemble(s.chunks, live[key].chunks)
  }

  /** Every live directory is there, and every live file carries its modification time. */
  ghost predicate SameShape(s: Server, account: string, space: string, t: Tree) {
    var live := LiveFiles(s.files);
    forall key | key in live && key.account == account && key.space == space ::
      (live[key].state.Dir? ==> IsDir(t, key.name))
      && (live[key].state.File? && live[key].modTime > 0 ==>
            IsFile(t, key.name) && t[key.name].mtime == live[key].modTime)
  }

  /** A client that has applied all events holds just the live files. */
  lemma CaughtUpHoldsLiveFiles(who: Who, z: Server, c: Copy)
    requires Inv(z) && CaughtUp(who, z, EventCount(who, z), c)
    ensures FilesOf(c.tree) == LiveContents(z, who.account, who.space)
    ensures SameShape(z, who.account, who.space, c.tree)
  {
    hide HistoriesOk, UniqueVersionIds, FilesOk, LogOk, ContentOk, OpsOk, ChunksOk, DistinctFileIds, FilterEvents,
         LastAt, Assemble;
    hide LiveFiles, Replay;
    var events := SpaceLog(z.log, who.account, who.space);
    var files, live := FilesOf(c.tree), LiveContents(z, who.account, who.space);
    assert events[..|events|] == events;
    forall key: Key | key in LiveFiles(z.files) && key.account == who.account && key.space == who.space
      ensures Shows(c.tree, key.name, Some(LiveFiles(z.files)[key]), z.chunks)
    {
      LastInSpace(z.log, who.account, who.space, key.name);
      ReplayIsLast(z.log, key);
      assert Shows(c.tree, key.name, Newest(who.account, who.space, events, |events|, key.name), z.chunks);
    }
    forall p
      ensures p in files <==> p in live
      ensures p in files && p in live ==> files[p] == live[p]
    {
      var key := Key(who.account, who.space, p);
      LastInSpace(z.log, who.account, who.space, p);
      ReplayIsLast(z.log, key);
      assert Shows(c.tree, p, Newest(who.account, who.space, events, |events|, p), z.chunks);
    }
  }

  // ---------------------------------------------------------------- the theorem

  const NEW_COPY := Copy(map[], 0, map[])

  function Before(pulls: seq<Pull>, i: nat): Copy
    requires i <= |pulls|
  {
    if i == 0 then NEW_COPY else pulls[i - 1].after
  }

  /** Pulls by a new client, one after the other, while the server moves on. */
  ghost predicate PullSequence(who: Who, pulls: seq<Pull>) {
    (forall i | 0 <= i < |pulls| :: IsPull(who, Before(pulls, i), pulls[i]))
    && (forall i, j | 0 <= i <= j < |pulls| :: Grows(pulls[i].server, pulls[j].server))
  }

  lemma NewCopyMirrors(who: Who, z: Server)
    requires Numbered(z.log)
    ensures CaughtUp(who, z, 0, NEW_COPY)
  {
  }

  /** How far the client is after `i` pulls. */
  function Reached(who: Who, pulls: seq<Pull>, i: nat): nat
    requires i <= |pulls|
  {
    if i == 0 then 0 else Behind(who, Reached(who, pulls, i - 1), Before(pulls, i - 1), pulls[i - 1])
  }

  lemma {:induction false} PullsCatchUp(who: Who, pulls: seq<Pull>, i: nat)
    requires i <= |pulls| && |pulls| > 0 && PullSequence(who, pulls) && Passive(who, pulls[|pulls| - 1].server)
    requires forall j | 0 <= j < |pulls| :: Unobstructed(who, Before(pulls, j), pulls[j])
    ensures CaughtUp(who, pulls[|pulls| - 1].server, Reached(who, pulls, i), Before(pulls, i))
    ensures i > 0 ==>
              var p, n := pulls[i - 1], Reached(who, pulls, i);
              Reached(who, pulls, i - 1) <= n <= EventCount(who, p.server)
              && (p.done <==> n == EventCount(who, p.server) && !ServerCutOff(who, p.server))
              && (Uninterrupted(who, Before(pulls, i - 1), p) ==> n == EventCount(who, p.server))
  {
    hide CaughtUp, IsPull, Grows, Unobstructed, ServerCutOff, Behind, Uninterrupted, EventCount;
    var z := pulls[|pulls| - 1].server;
    if i == 0 {
      LogSound(z, who.account, who.space);
      NewCopyMirrors(who, z);
    } else {
      PullsCatchUp(who, pulls, i - 1);
      if i > 1 { CountGrows(who, pulls[i - 2].server, pulls[i - 1].server); }
      assert IsPull(who, Before(pulls, i - 1), pulls[i - 1]);
      OnePull(who, z, Reached(who, pulls, i - 1), Before(pulls, i - 1), pulls[i - 1]);
    }
  }

  lemma CountGrows(who: Who, s: Server, s': Server)
    requires Grows(s, s')
    ensures EventCount(who, s) <= EventCount(who, s')
  {
    SpaceLogGrows(s.log, s'.log, who.account, who.space);
  }

  /** Whatever the batches, and wherever pulls were cancelled or downloads failed, if each version is applicable when
      its turn comes: once a pull gets through, as an uninterrupted one does, the client's files are the server's live
      files, in the server's live directories, with their modification times.  Such a pull reports an error only from
      its cleanup, exactly when the path of a deleted directory lies below a live file. */
  lemma PassiveClientConverges(who: Who, pulls: seq<Pull>)
    requires |pulls| > 0 && PullSequence(who, pulls) && Passive(who, pulls[|pulls| - 1].server)
    requires forall i | 0 <= i < |pulls| :: Unobstructed(who, Before(pulls, i), pulls[i])
    ensures forall i | 0 <= i < |pulls| ::
              (pulls[i].done ==> !ServerCutOff(who, pulls[i].server))
              && (Uninterrupted(who, Before(pulls, i), pulls[i]) ==>
                    (pulls[i].done <==> !ServerCutOff(who, pulls[i].server)))
    ensures var n := |pulls| - 1;
            var z := pulls[n].server;
            pulls[n].done || Uninterrupted(who, Before(pulls, n), pulls[n]) ==>
              FilesOf(pulls[n].after.tree) == LiveContents(z, who.account, who.space)
              && SameShape(z, who.account, who.space, pulls[n].after.tree)
  {
    hide CaughtUp, IsPull, Grows, PullSequence, Inv, Unobstructed, ServerCutOff, Uninterrupted, EventCount, Reached,
         SameShape, LiveContents;
    var n := |pulls| - 1;
    forall i | 0 <= i <= n
      ensures pulls[i].done ==> !ServerCutOff(who, pulls[i].server)
      ensures Uninterrupted(who, Before(pulls, i), pulls[i]) ==>
                (pulls[i].done <==> !ServerCutOff(who, pulls[i].server))
    {
      PullsCatchUp(who, pulls, i + 1);
    }
    PullsCatchUp(who, pulls, n + 1);
    if pulls[n].done || Uninterrupted(who, Before(pulls, n), pulls[n]) {
      CaughtUpHoldsLiveFiles(who, pulls[n].server, pulls[n].after);
    }
  }

  // ---------------------------------------------------------------- paths that change their type

  /** A directory cannot be created over a regular file: the pull stops here, and will each time. */
  lemma DirOverFileFails(c: Copy, device: string, v: FileVersion, env: Env)
    requires CleanRel(v.path) == Ok(v.path) && v.state.Dir? && !IsRecorded(c.records, v.path, v)
             && IsFile(c.tree, v.path)
    ensures ApplyVersion(c, device, v, env) == (c, false)
  {
  }

  /** Nor a file over a directory that is recorded as one. */
  lemma FileOverDirFails(c: Copy, device: string, v: FileVersion, env: Env)
    requires CleanRel(v.path) == Ok(v.path) && v.state.File? && !IsRecorded(c.records, v.path, v)
    requires IsDir(c.tree, v.path) && Known(c.records, v.path).state.Dir?
    ensures var (c', done) := ApplyVersion(c, device, v, env);
            !done && c'.records == c.records && IsDir(c'.tree, v.path)
  {
  }
}
