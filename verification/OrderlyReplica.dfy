/** What stands in the way of a client that only pulls, read off the log; and logs that never put anything in its
    way, whatever the batches and the clock. */
module OrderlyReplica {
  import opened Model
  import opened Paths
  import opened ConflictNames
  import opened ClientRecords
  import opened StoreSpec
  import opened StoreInvariant
  import opened StoreGrowth
  import opened LocalFiles
  import opened ClientEngine
  import opened DirectoryCleanup
  import opened PassiveReplica

  /** Not a directory, nor the end of one. */
  predicate FileLike(v: FileVersion) { !v.state.Dir? && !(v.state.Deleted? && v.deletedState.Dir?) }

  // ---------------------------------------------------------------- applicable versions, read off the log

  /** A file, or the tombstone of an entry that never had a version: what stands at its path has to give way. */
  predicate NeedsRoom(v: FileVersion) { v.state.File? || (v.state.Deleted? && v.deletedState.Unset?) }

  /** No live file is above event `k`; a directory comes where no live file is, a file where no live directory is
      and nothing live below. */
  ghost predicate LogAllows(account: string, space: string, events: seq<Event>, k: nat)
    requires k < |events|
  {
    var v := events[k].version;
    (forall d | d in Above(v.path) :: !LiveFileAt(account, space, events, k, d))
    && (v.state.Dir? ==> !LiveFileAt(account, space, events, k, v.path))
    && (v.state.File? ==> !LiveDirAt(account, space, events, k, v.path))
    && (NeedsRoom(v) ==>
          forall q | Under(q, v.path) ::
            !LiveFileAt(account, space, events, k, q) && !LiveDirAt(account, space, events, k, q))
  }

  /** Should a directory be left where a version needs room, its conflict name is free. */
  predicate RoomFor(c: Copy, device: string, v: FileVersion, env: Env) {
    NeedsRoom(v) && IsDir(c.tree, v.path) ==> LocalConflictName(v.path, device, env.stamp) !in c.tree
  }

  /** In a log in which each version comes once, a client that applied the events before has not recorded the next. */
  lemma NotYetRecorded(account: string, space: string, events: seq<Event>, k: nat, records: Records)
    requires k < |events| && LogLinear(events) && RecordsMirror(account, space, events, k, records)
    ensures !IsRecorded(records, events[k].version.path, events[k].version)
  {
    hide Newest, LastAt, TombstoneFits;
    var p := events[k].version.path;
    assert Remembers(records, p, Newest(account, space, events, k, p));
    if Newest(account, space, events, k, p).Some? {
      NewestIsEvent(account, space, events, k, p);
      forall i | 0 <= i < k ensures events[i].version.versionId != events[k].version.versionId {
        assert DifferentVersions(events, i, k);
      }
    }
  }

  /** A tombstone names the state of the live version before it, or comes where there is none. */
  lemma TombstoneAfter(account: string, space: string, events: seq<Event>, k: nat)
    requires k < |events| && LogLinear(events) && events[k].version.state.Deleted?
             && events[k].version.account == account && events[k].version.space == space
    ensures var v := events[k].version;
            var last := Newest(account, space, events, k, v.path);
            if last.Some? && !last.value.state.Deleted? then v.deletedState == last.value.state
            else v.deletedState.Unset?
  {
    hide LastAt;
    assert EventFits(events, k);
  }

  /** What a tombstone finds on a client that mirrors the events before it. */
  lemma TombstoneFinds(account: string, space: string, chunks: map<string, Bytes>, events: seq<Event>, k: nat, c: Copy)
    requires k < |events| && EventsSound(account, space, chunks, events) && LogLinear(events)
             && Mirrors(account, space, chunks, events, k, c) && events[k].version.state.Deleted?
    ensures var v, known := events[k].version, Known(c.records, events[k].version.path);
            (v.deletedState.Unset? ==> !known.state.Dir? && !TombstoneEntryState(v, known).Dir?)
            && (!v.deletedState.Unset? && !v.deletedState.Dir? ==> IsFile(c.tree, v.path))
  {
    hide Newest, LogLinear, WellFormed, Joinable;
    var v := events[k].version;
    assert VersionSound(account, space, chunks, v);
    TombstoneAfter(account, space, events, k);
    var last := Newest(account, space, events, k, v.path);
    assert Remembers(c.records, v.path, last) && Shows(c.tree, v.path, last, chunks);
    if last.Some? {
      NewestIsEvent(account, space, events, k, v.path);
      assert VersionSound(account, space, chunks, last.value);
    }
  }

  /** A version is applicable if and only if the log allows it and, should a directory be left where it needs room, its
      conflict name is free. */
  lemma LogTellsApplicable(account: string, space: string, chunks: map<string, Bytes>, events: seq<Event>, k: nat,
                           c: Copy, device: string, env: Env)
    requires k < |events| && EventsSound(account, space, chunks, events) && LogLinear(events)
             && Mirrors(account, space, chunks, events, k, c)
    ensures Applicable(c, device, events[k].version, env)
       <==> LogAllows(account, space, events, k) && RoomFor(c, device, events[k].version, env)
  {
    hide Newest, LiveFileAt, LiveDirAt, LocalConflictName, Diverged, IsRecorded, LogLinear, TombstoneEntryState;
    var v := events[k].version;
    assert VersionSound(account, space, chunks, v);
    NotYetRecorded(account, space, events, k, c.records);
    MirrorsTell(account, space, chunks, events, k, c.records, c.tree);
    forall p
      ensures LiveFileAt(account, space, events, k, p) <==> p in c.records && c.records[p].state.File?
      ensures LiveDirAt(account, space, events, k, p) <==> p in c.records && c.records[p].state.Dir?
    {
      RecordsLive(account, space, events, k, c.records, p);
    }
    if !IsDir(c.tree, v.path) { NotADirHoldsNothing(c, v.path); }
    if v.state.Deleted? {
      TombstoneFinds(account, space, chunks, events, k, c);
      TombstoneState(v, Known(c.records, v.path));
    }
  }

  lemma TombstoneState(v: FileVersion, known: LocalFileState)
    ensures !v.deletedState.Unset? ==> TombstoneEntryState(v, known) == v.deletedState
  {
  }

  lemma NotADirHoldsNothing(c: Copy, p: string)
    requires WellFormed(c.tree) && RecordsTell(c.records, c.tree) && !IsDir(c.tree, p)
    ensures Vacant(c.records, p) && !Known(c.records, p).state.Dir?
  {
  }

  // ---------------------------------------------------------------- unobstructed pulls, read off the log

  /** Every conflict name a pull over the events needs is free when its turn comes. */
  predicate AllRoom(c: Copy, device: string, root: string, events: seq<Event>, envs: seq<Env>)
    decreases |events|
  {
    if events == [] || envs == [] then true
    else if OwnEvent(device, root, events[0]) then
      AllRoom(Advance(c, events[0]), device, root, events[1..], envs[1..])
    else
      RoomFor(c, device, events[0].version, envs[0])
      && var (c1, done) := ApplyVersion(c, device, events[0].version, envs[0]);
         done ==> AllRoom(Advance(c1, events[0]), device, root, events[1..], envs[1..])
  }

  /** Over events the log allows, nothing but a conflict name can be in the way; and what nothing was in the way of,
      when the pull got through, the log allows. */
  lemma {:induction false} ApplicableOnLog(account: string, space: string, chunks: map<string, Bytes>,
                                           events: seq<Event>, k: nat, m: nat, c: Copy, device: string, root: string,
                                           envs: seq<Env>)
    requires k <= m <= |events| && EventsSound(account, space, chunks, events) && LogLinear(events)
    requires NoneOwn(device, root, events) && Brought(chunks, events, k, m, envs)
    requires Mirrors(account, space, chunks, events, k, c)
    ensures (forall i | k <= i < m :: LogAllows(account, space, events, i)) ==>
              AllApplicable(c, device, root, events[k..m], envs) == AllRoom(c, device, root, events[k..m], envs)
    ensures AllApplicable(c, device, root, events[k..m], envs) && Undisturbed(events[k..m], envs) ==>
              AllRoom(c, device, root, events[k..m], envs)
              && forall i | k <= i < m :: LogAllows(account, space, events, i)
    decreases m - k
  {
    hide Mirrors, EventsSound, ApplyVersion, Applicable, Brought, Assemble, LogAllows, RoomFor, LogLinear, Undisturbed;
    if k == m {
      assert events[k..m] == [];
    } else if envs == [] {
      SomeMissing(events[k..m], envs);
    } else {
      var e := events[k];
      assert events[k..m][0] == e && events[k..m][1..] == events[k + 1..m];
      FirstBrought(chunks, events, k, m, envs);
      LogTellsApplicable(account, space, chunks, events, k, c, device, envs[0]);
      if Applicable(c, device, e.version, envs[0]) {
        EventMirrors(account, space, chunks, events, k, c, device, envs[0]);
        var (c1, passed) := ApplyVersion(c, device, e.version, envs[0]);
        if passed {
          AdvanceMirrors(account, space, chunks, events, k + 1, c1, e);
          BroughtRest(chunks, events, k, m, envs);
          ApplicableOnLog(account, space, chunks, events, k + 1, m, Advance(c1, e), device, root, envs[1..]);
        }
      }
    }
  }

  predicate Roomy(who: Who, c: Copy, p: Pull) {
    AllRoom(c, who.device, who.root, SortBySeq(EventsAfter(p.server, who.account, who.space, c.cursor)), p.envs)
  }

  /** The events of the space from number `k` on that a server has. */
  ghost predicate LogClear(who: Who, z: Server, k: nat, m: nat) {
    var events := SpaceLog(z.log, who.account, who.space);
    m <= |events| && forall i | k <= i < m :: LogAllows(who.account, who.space, events, i)
  }

  /** Whether anything is in the way of a pull is a matter of the log and of the conflict names alone. */
  lemma UnobstructedOnLog(who: Who, z: Server, k: nat, c: Copy, p: Pull)
    requires Passive(who, z) && Grows(p.server, z) && CaughtUp(who, z, k, c) && k <= EventCount(who, p.server)
    requires IsPull(who, c, p)
    ensures LogClear(who, z, k, EventCount(who, p.server)) ==> Unobstructed(who, c, p) == Roomy(who, c, p)
    ensures Unobstructed(who, c, p) && Uninterrupted(who, c, p) ==>
              LogClear(who, z, k, EventCount(who, p.server)) && Roomy(who, c, p)
  {
    hide Inv, EventsSound, Mirrors, SpaceLog, PullEnds, Served, EventsAfter, EventCount, AllApplicable, AllRoom,
         Undisturbed, Brought, SortBySeq, NoneOwn, Ascending, CursorAfter, LogAllows, LogLinear;
    var events, m := SpaceLog(z.log, who.account, who.space), EventCount(who, p.server);
    LogSound(z, who.account, who.space);
    ServerLogLinear(z, who.account, who.space);
    SpaceLogEvents(z.log, who.account, who.space);
    AnswerIsRest(who, z, p.server, k, c.cursor);
    RestAscending(events, k, m);
    DownloadsBrought(who, z, p.server, k, p.envs);
    ApplicableOnLog(who.account, who.space, z.chunks, events, k, m, c, who.device, who.root, p.envs);
  }

  lemma ServerLogLinear(s: Server, account: string, space: string)
    requires Inv(s)
    ensures LogLinear(SpaceLog(s.log, account, space))
  {
    SpaceLogLinear(s.log, account, space);
  }

  lemma {:induction false} ClearPullsCatchUp(who: Who, pulls: seq<Pull>, i: nat)
    requires i <= |pulls| && |pulls| > 0 && PullSequence(who, pulls) && Passive(who, pulls[|pulls| - 1].server)
    requires var z := pulls[|pulls| - 1].server; LogClear(who, z, 0, EventCount(who, z))
    requires forall j | 0 <= j < |pulls| :: Roomy(who, Before(pulls, j), pulls[j])
    ensures CaughtUp(who, pulls[|pulls| - 1].server, Reached(who, pulls, i), Before(pulls, i))
    ensures i > 0 ==>
              Unobstructed(who, Before(pulls, i - 1), pulls[i - 1])
              && Reached(who, pulls, i) <= EventCount(who, pulls[i - 1].server)
  {
    hide CaughtUp, IsPull, Grows, Unobstructed, ServerCutOff, Behind, EventCount, LogClear, Roomy, Uninterrupted;
    var z := pulls[|pulls| - 1].server;
    if i == 0 {
      LogSound(z, who.account, who.space);
      NewCopyMirrors(who, z);
    } else {
      ClearPullsCatchUp(who, pulls, i - 1);
      if i > 1 { CountGrows(who, pulls[i - 2].server, pulls[i - 1].server); }
      assert IsPull(who, Before(pulls, i - 1), pulls[i - 1]);
      CountGrows(who, pulls[i - 1].server, z);
      ClearPart(who, z, Reached(who, pulls, i - 1), EventCount(who, pulls[i - 1].server));
      UnobstructedOnLog(who, z, Reached(who, pulls, i - 1), Before(pulls, i - 1), pulls[i - 1]);
      OnePull(who, z, Reached(who, pulls, i - 1), Before(pulls, i - 1), pulls[i - 1]);
    }
  }

  lemma ClearPart(who: Who, z: Server, k: nat, m: nat)
    requires LogClear(who, z, 0, EventCount(who, z)) && m <= EventCount(who, z)
    ensures LogClear(who, z, k, m)
  {
  }

  /** Over a log that allows each of its events, if the conflict names that are needed are free: a pull that got
      through leaves the client with the server's live files, and an uninterrupted one fails exactly if a deleted
      directory lies below a live file. */
  lemma ClearClientConverges(who: Who, pulls: seq<Pull>)
    requires |pulls| > 0 && PullSequence(who, pulls) && Passive(who, pulls[|pulls| - 1].server)
    requires var z := pulls[|pulls| - 1].server; LogClear(who, z, 0, EventCount(who, z))
    requires forall i | 0 <= i < |pulls| :: Roomy(who, Before(pulls, i), pulls[i])
    ensures forall i | 0 <= i < |pulls| ::
              (pulls[i].done ==> !ServerCutOff(who, pulls[i].server))
              && (Uninterrupted(who, Before(pulls, i), pulls[i]) ==>
                    (pulls[i].done <==> !ServerCutOff(who, pulls[i].server)))
    ensures var n := |pulls| - 1;
            var z := pulls[n].server;
            pulls[n].done || Uninterrupted(who, Before(pulls, n), pulls[n]) ==>
              FilesOf(pulls[n].after.tree) == LiveContents(z, who.account, who.space)
              && SameShape(z, who.account, who.space, pulls[n].after.tree)
  {
    hide CaughtUp, IsPull, Grows, PullSequence, Inv, Unobstructed, NoneOwn, SameShape, LiveContents, ServerCutOff,
         Uninterrupted, EventCount, Reached, LogClear, Roomy;
    forall i | 0 <= i < |pulls| ensures Unobstructed(who, Before(pulls, i), pulls[i]) {
      ClearPullsCatchUp(who, pulls, i + 1);
    }
    PassiveClientConverges(who, pulls);
  }

  // ---------------------------------------------------------------- orderly logs

  /** A directory was recorded at `d`, or something below it. */
  predicate DirPath(events: seq<Event>, k: nat, d: string)
    requires k <= |events|
  {
    exists i :: 0 <= i < k
                && (d in Above(events[i].version.path) || (events[i].version.path == d && !FileLike(events[i].version)))
  }

  /** Each event comes below no live file; a directory not onto a live file; a file, or its tombstone, at no path
      that ever was a directory's.  What once was a file may become a directory. */
  ghost predicate Orderly(account: string, space: string, events: seq<Event>) {
    forall k | 0 <= k < |events| ::
      var v := events[k].version;
      (forall d | d in Above(v.path) :: !LiveFileAt(account, space, events, k, d))
      && (v.state.Dir? ==> !LiveFileAt(account, space, events, k, v.path))
      && (FileLike(v) ==> !DirPath(events, k, v.path))
  }

  /** Every local directory is one the log knows, or was made for the next event, whose download then failed. */
  ghost predicate DirsKnown(events: seq<Event>, k: nat, t: Tree)
    requires k <= |events|
  {
    forall d | IsDir(t, d) :: DirPath(events, k, d) || (k < |events| && d in Above(events[k].version.path))
  }

  lemma DirPathGrows(events: seq<Event>, k: nat, d: string)
    requires k < |events|
    ensures DirPath(events, k + 1, d)
       <==> DirPath(events, k, d) || d in Above(events[k].version.path)
            || (events[k].version.path == d && !FileLike(events[k].version))
  {
  }

  /** In an orderly log every version is applicable. */
  lemma OrderlyApplicable(account: string, space: string, chunks: map<string, Bytes>, events: seq<Event>, k: nat,
                          c: Copy, device: string, env: Env)
    requires k < |events| && EventsSound(account, space, chunks, events) && Orderly(account, space, events)
    requires Mirrors(account, space, chunks, events, k, c) && DirsKnown(events, k, c.tree)
    ensures Applicable(c, device, events[k].version, env)
    ensures FileLike(events[k].version) ==> !IsDir(c.tree, events[k].version.path)
  {
  }

  lemma MadeDirs(t: Tree, dirs: set<string>, d: string)
    requires IsDir(MakeDirs(t, dirs).0, d)
    ensures IsDir(t, d) || d in dirs
  {
  }

  lemma DownloadedDirs(t: Tree, rel: string, v: FileVersion, env: Env, d: string)
    requires IsDir(Download(t, rel, v, env).0, d)
    ensures IsDir(t, d) || d in Above(rel)
  {
    if IsDir(EnsureParent(t, rel).0, d) { MadeDirs(t, Above(rel), d); }
  }

  /** Where no directory stands at a file's path, only the directories above a version and its own appear. */
  lemma NewDirs(t: Tree, known: LocalFileState, rel: string, device: string, v: FileVersion, env: Env, d: string)
    requires KnownState(v.state) && (FileLike(v) ==> !IsDir(t, rel)) && !BlockedAbove(t, rel)
    requires IsFile(t, rel) ==> !Diverged(t, rel, known)
    requires IsDir(ApplyToFiles(t, known, rel, device, v, env).0, d)
    ensures IsDir(t, d) || d in Above(rel) || (d == rel && !FileLike(v))
  {
    hide MoveAside, Download, MakeDirs;
    if v.state.Dir? {
      MadeDirs(t, Above(rel) + {rel}, d);
    } else if v.state.File? {
      assert !Diverged(t, rel, known);
      DownloadedDirs(t, rel, v, env, d);
    }
  }

  /** Event `k` of an orderly log is applied unless its download fails, and the log still knows every directory. */
  lemma OrderlyStep(account: string, space: string, chunks: map<string, Bytes>, events: seq<Event>, k: nat, c: Copy,
                    device: string, env: Env)
    requires k < |events| && EventsSound(account, space, chunks, events) && Orderly(account, space, events)
    requires Mirrors(account, space, chunks, events, k, c) && DirsKnown(events, k, c.tree)
    requires var v := events[k].version;
             v.state.File? ==> env.fetched.Err? || env.fetched == Ok(Assemble(chunks, v.chunks))
    ensures Applicable(c, device, events[k].version, env)
    ensures var (c', done) := ApplyVersion(c, device, events[k].version, env);
            var n := if done then k + 1 else k;
            Mirrors(account, space, chunks, events, n, c') && DirsKnown(events, n, c'.tree)
  {
    hide Newest, Orderly, ApplyToFiles, Applicable, Diverged, DirPath, LiveFileAt, Mirrors, WellFormed;
    hide IsClean, CleanRel;
    var v := events[k].version;
    assert VersionSound(account, space, chunks, v);
    CleanRelFixpoint(v.path);
    OrderlyApplicable(account, space, chunks, events, k, c, device, env);
    EventMirrors(account, space, chunks, events, k, c, device, env);
    var (c', done) := ApplyVersion(c, device, v, env);
    forall d | IsDir(c'.tree, d)
      ensures DirPath(events, k + 1, d)
      ensures DirPath(events, k, d) || d in Above(v.path) || (done && d == v.path)
    {
      DirPathGrows(events, k, d);
      if c'.tree != c.tree {
        NothingInTheWay(account, space, chunks, events, k, c, device, env);
        NewDirs(c.tree, Known(c.records, v.path), v.path, device, v, env, d);
      }
    }
  }

  lemma NothingInTheWay(account: string, space: string, chunks: map<string, Bytes>, events: seq<Event>, k: nat, c: Copy,
                        device: string, env: Env)
    requires k < |events| && EventsSound(account, space, chunks, events)
             && Mirrors(account, space, chunks, events, k, c)
    requires Applicable(c, device, events[k].version, env)
             && !IsRecorded(c.records, events[k].version.path, events[k].version)
    ensures var rel := events[k].version.path;
            !BlockedAbove(c.tree, rel) && (IsFile(c.tree, rel) ==> !Diverged(c.tree, rel, Known(c.records, rel)))
  {
    hide Newest, Diverged;
    MirrorsTell(account, space, chunks, events, k, c.records, c.tree);
  }

  /** Nothing is in the way of a pull over an orderly log, and its cleanup finds nothing below a file. */
  lemma {:induction false} OrderlyPull(account: string, space: string, chunks: map<string, Bytes>, events: seq<Event>,
                                       k: nat, m: nat, c: Copy, device: string, root: string, envs: seq<Env>)
    requires k <= m <= |events| && EventsSound(account, space, chunks, events) && Orderly(account, space, events)
    requires NoneOwn(device, root, events) && Brought(chunks, events, k, m, envs)
    requires Mirrors(account, space, chunks, events, k, c) && DirsKnown(events, k, c.tree)
    ensures AllApplicable(c, device, root, events[k..m], envs)
    ensures var n := k + Passed(c, device, root, events[k..m], envs);
            n <= m && DirsKnown(events, n, PullEvents(c, device, root, events[k..m], envs).0.tree)
    decreases m - k
  {
    hide Mirrors, EventsSound, Orderly, DirsKnown, ApplyVersion, Applicable, Brought, Assemble;
    if k == m {
      assert events[k..m] == [];
    } else if envs != [] {
      var e := events[k];
      assert events[k..m][0] == e && events[k..m][1..] == events[k + 1..m];
      FirstBrought(chunks, events, k, m, envs);
      OrderlyStep(account, space, chunks, events, k, c, device, envs[0]);
      var (c1, passed) := ApplyVersion(c, device, e.version, envs[0]);
      if passed {
        AdvanceMirrors(account, space, chunks, events, k + 1, c1, e);
        BroughtRest(chunks, events, k, m, envs);
        OrderlyPull(account, space, chunks, events, k + 1, m, Advance(c1, e), device, root, envs[1..]);
      }
    }
  }

  /** In an orderly log no live file is ever above the path of an earlier event. */
  lemma {:induction false} NothingBelowFiles(account: string, space: string, chunks: map<string, Bytes>,
                                             events: seq<Event>, k: nat, i: nat, e: string)
    requires i < k <= |events| && EventsSound(account, space, chunks, events) && Orderly(account, space, events)
    requires e in Above(events[i].version.path)
    ensures !LiveFileAt(account, space, events, k, e)
    decreases k
  {
    hide Newest;
    var v := events[k - 1].version;
    assert VersionSound(account, space, chunks, v);
    NewestStep(account, space, events, k - 1, e);
    if i < k - 1 {
      NothingBelowFiles(account, space, chunks, events, k - 1, i, e);
      assert DirPath(events, k - 1, e);
    }
  }

  lemma OrderlyNotCutOff(account: string, space: string, chunks: map<string, Bytes>, events: seq<Event>, k: nat)
    requires k <= |events| && EventsSound(account, space, chunks, events) && Orderly(account, space, events)
    ensures !LogCutOff(account, space, events, k)
  {
    hide Orderly, EventsSound, LiveFileAt, GoneDirAt;
    forall i, j | 0 <= i < k && 0 <= j < k && Under(events[i].version.path, events[j].version.path)
      ensures !LiveFileAt(account, space, events, k, events[j].version.path)
    {
      AboveIsUnder(events[i].version.path, events[j].version.path);
      NothingBelowFiles(account, space, chunks, events, k, i, events[j].version.path);
    }
  }

  // ---------------------------------------------------------------- the theorem for orderly logs

  /** The log knows every directory of a client that has applied `k` events. */
  ghost predicate Orderlies(who: Who, z: Server, k: nat, c: Copy) {
    var events := SpaceLog(z.log, who.account, who.space);
    CaughtUp(who, z, k, c) && DirsKnown(events, k, c.tree)
  }

  ghost predicate OrderlyLog(who: Who, z: Server) {
    Passive(who, z) && Orderly(who.account, who.space, SpaceLog(z.log, who.account, who.space))
  }

  lemma DirsStayKnown(events: seq<Event>, k: nat, t: Tree, order: seq<string>)
    requires k <= |events| && DirsKnown(events, k, t)
    ensures DirsKnown(events, k, RemoveEach(t, order).0)
    decreases |order|
  {
  }

  /** The loop of one pull over an orderly log. */
  lemma OrderlyLoop(who: Who, z: Server, k: nat, c: Copy, p: Pull)
    requires OrderlyLog(who, z) && Grows(p.server, z) && Orderlies(who, z, k, c) && k <= EventCount(who, p.server)
    requires IsPull(who, c, p)
    ensures var events := SpaceLog(z.log, who.account, who.space);
            var answer := SortBySeq(EventsAfter(p.server, who.account, who.space, c.cursor));
            Unobstructed(who, c, p) && Behind(who, k, c, p) <= |events|
            && DirsKnown(events, Behind(who, k, c, p), PullEvents(c, who.device, who.root, answer, p.envs).0.tree)
  {
    hide Inv, EventsSound, Mirrors, SpaceLog, PullEvents, PullEnds, Passed, Served, EventsAfter, EventCount,
         AllApplicable, Orderly, DirsKnown, Undisturbed, Brought;
    var events, m := SpaceLog(z.log, who.account, who.space), EventCount(who, p.server);
    LogSound(z, who.account, who.space);
    SpaceLogEvents(z.log, who.account, who.space);
    AnswerIsRest(who, z, p.server, k, c.cursor);
    RestAscending(events, k, m);
    DownloadsBrought(who, z, p.server, k, p.envs);
    OrderlyPull(who.account, who.space, z.chunks, events, k, m, c, who.device, who.root, p.envs);
  }

  lemma OrderlyServer(who: Who, z: Server, s: Server)
    requires OrderlyLog(who, z) && Grows(s, z)
    ensures !ServerCutOff(who, s)
  {
    hide Inv, EventsSound, SpaceLog, LogCutOff, Orderly, ServerCutOff;
    LogSound(z, who.account, who.space);
    ServerCutOffLater(who, s, z);
    OrderlyNotCutOff(who.account, who.space, z.chunks, SpaceLog(z.log, who.account, who.space), EventCount(who, s));
  }

  lemma OneOrderlyPull(who: Who, z: Server, k: nat, c: Copy, p: Pull)
    requires OrderlyLog(who, z) && Grows(p.server, z) && Orderlies(who, z, k, c) && k <= EventCount(who, p.server)
    requires IsPull(who, c, p)
    ensures Unobstructed(who, c, p) && !ServerCutOff(who, p.server)
            && Behind(who, k, c, p) <= EventCount(who, p.server)
            && Orderlies(who, z, Behind(who, k, c, p), p.after)
  {
    hide Inv, Mirrors, SpaceLog, PullEvents, Served, EventsAfter, RemoveEach, EventCount, Unobstructed, ServerCutOff,
         Orderly, DirsKnown, Uninterrupted, Behind, SortBySeq, CaughtUp, Grows, LongestFirst;
    OrderlyLoop(who, z, k, c, p);
    OnePull(who, z, k, c, p);
    OrderlyServer(who, z, p.server);
    var answer := SortBySeq(EventsAfter(p.server, who.account, who.space, c.cursor));
    var (c1, passed) := PullEvents(c, who.device, who.root, answer, p.envs);
    if passed {
      var order :| LongestFirst(order) && SetOf(order) == DeletedDirs(c1.records)
                   && (p.after.tree, p.done) == RemoveEach(c1.tree, order);
      DirsStayKnown(SpaceLog(z.log, who.account, who.space), Behind(who, k, c, p), c1.tree, order);
    }
  }

  lemma {:induction false} OrderlyPullsCatchUp(who: Who, pulls: seq<Pull>, i: nat)
    requires i <= |pulls| && |pulls| > 0 && PullSequence(who, pulls) && OrderlyLog(who, pulls[|pulls| - 1].server)
    ensures Orderlies(who, pulls[|pulls| - 1].server, Reached(who, pulls, i), Before(pulls, i))
    ensures i > 0 ==>
              Unobstructed(who, Before(pulls, i - 1), pulls[i - 1]) && !ServerCutOff(who, pulls[i - 1].server)
              && Reached(who, pulls, i) <= EventCount(who, pulls[i - 1].server)
  {
    hide CaughtUp, IsPull, Grows, Unobstructed, Orderly, ServerCutOff, Behind, EventCount;
    var z := pulls[|pulls| - 1].server;
    if i == 0 {
      LogSound(z, who.account, who.space);
      NewCopyMirrors(who, z);
    } else {
      OrderlyPullsCatchUp(who, pulls, i - 1);
      if i > 1 { CountGrows(who, pulls[i - 2].server, pulls[i - 1].server); }
      assert IsPull(who, Before(pulls, i - 1), pulls[i - 1]);
      OneOrderlyPull(who, z, Reached(who, pulls, i - 1), Before(pulls, i - 1), pulls[i - 1]);
    }
  }

  /** Over an orderly log, whatever the batches and wherever pulls were cut short: an uninterrupted pull succeeds, and
      after a pull that succeeded the client's files are the server's live files, in the server's live directories,
      with their modification times. */
  lemma OrderlyClientConverges(who: Who, pulls: seq<Pull>)
    requires |pulls| > 0 && PullSequence(who, pulls) && OrderlyLog(who, pulls[|pulls| - 1].server)
    ensures forall i | 0 <= i < |pulls| :: Uninterrupted(who, Before(pulls, i), pulls[i]) ==> pulls[i].done
    ensures var n := |pulls| - 1;
            var z := pulls[n].server;
            pulls[n].done ==>
              FilesOf(pulls[n].after.tree) == LiveContents(z, who.account, who.space)
              && SameShape(z, who.account, who.space, pulls[n].after.tree)
  {
    hide Orderlies, IsPull, Grows, PullSequence, Inv, Unobstructed, Orderly, NoneOwn, SameShape, LiveContents,
         ServerCutOff, Uninterrupted, EventCount;
    forall i | 0 <= i < |pulls|
      ensures Unobstructed(who, Before(pulls, i), pulls[i]) && !ServerCutOff(who, pulls[i].server)
    {
      OrderlyPullsCatchUp(who, pulls, i + 1);
    }
    PassiveClientConverges(who, pulls);
  }

  /** A file, its deletion, a directory in its place, and a file in that: an orderly log. */
  lemma FileBecomesDirectory(account: string, space: string, events: seq<Event>)
    requires |events| == 4
    requires forall i | 0 <= i < 4 :: events[i].version.account == account && events[i].version.space == space
    requires events[0].version.path == events[1].version.path == events[2].version.path == "a"
             && events[3].version.path == "a/b"
    requires events[0].version.state.File? && events[1].version.state.Deleted? && events[1].version.deletedState.File?
    requires events[2].version.state.Dir? && events[3].version.state.File?
    ensures Orderly(account, space, events)
  {
    AboveAB();
    hide Newest, Above;
    forall k, p | 0 <= k < 4
      ensures Newest(account, space, events, k + 1, p)
           == if events[k].version.path == p then Some(events[k].version) else Newest(account, space, events, k, p)
    {
      NewestStep(account, space, events, k, p);
    }
    NothingYet(account, space, events, "a");
    assert !LiveFileAt(account, space, events, 2, "a") && !LiveFileAt(account, space, events, 3, "a");
  }

  /** A directory, one in it, both deleted, and a file where the outer one was: nothing is in the way of any of these
      events, yet the path of the inner one now lies below a live file. */
  lemma FileOverDeletedDirs(account: string, space: string, events: seq<Event>)
    requires |events| == 5
    requires forall i | 0 <= i < 5 :: events[i].version.account == account && events[i].version.space == space
    requires events[0].version.path == events[3].version.path == events[4].version.path == "a"
             && events[1].version.path == events[2].version.path == "a/b"
    requires events[0].version.state.Dir? && events[1].version.state.Dir? && events[4].version.state.File?
    requires forall i | 2 <= i < 4 :: events[i].version.state.Deleted? && events[i].version.deletedState.Dir?
    ensures forall k | 0 <= k < 5 :: LogAllows(account, space, events, k)
    ensures LogCutOff(account, space, events, 5)
  {
    AboveAB();
    hide Newest, Above;
    forall k, p | 0 <= k < 5
      ensures Newest(account, space, events, k + 1, p)
           == if events[k].version.path == p then Some(events[k].version) else Newest(account, space, events, k, p)
    {
      NewestStep(account, space, events, k, p);
    }
    forall p ensures Newest(account, space, events, 0, p) == None { NothingYet(account, space, events, p); }
    assert GoneDirAt(account, space, events, 5, events[2].version.path);
    assert LiveFileAt(account, space, events, 5, events[4].version.path);
  }

  lemma AboveAB()
    ensures Above("a") == {} && Above("a/b") == {"a"} && Under("a/b", "a")
  {
    assert forall i | 0 <= i < |"a"| :: "a"[i] != '/';
    assert "a/b"[1] == '/' && "a/b"[..1] == "a";
  }

  lemma NothingYet(account: string, space: string, events: seq<Event>, p: string)
    ensures Newest(account, space, events, 0, p) == None
  {
  }
}
