/** Delivering a request more than once. */
module Redelivery {
  import opened Model
  import opened Paths
  import opened StoreSpec
  import opened StoreInvariant
  import opened StoreGrowth
  import opened StoreCommit
  import opened SyncProtocol

  // ---------------------------------------------------------------- growth over whole runs

  lemma NextGrows(w: World, step: Step)
    ensures Grows(w.server, Next(w, step).server)
  {
    hide Grows, CheckCommit, GrantEmpty, CommitLocked, Delete, Restore, Prune, PutChunk, GrantAccountChunk, Recorded,
         Applied, Upload, Removal, EventsAfter, IsClean;
    GrowsReflexive(w.server);
    match step
    case SendCommit(id, opId, path, scan) =>
    case SendDelete(id, opId, path) =>
    case CheckSent(opId) =>
      if IsSentCommit(w, opId) {
        var c := w.clients[w.sent[opId].client];
        var m := w.sent[opId].message.commit;
        match CheckCommit(w.server, c.account, c.space, m)
        case Err(_) =>
        case Ok(plan) => GrantEmptyGrows(w.server, c.account, m.manifest, plan);
      }
    case HandleCommit(opId, plan, clock) =>
      if IsSentCommit(w, opId) {
        var c := w.clients[w.sent[opId].client];
        CommitLockedGrows(w.server, c.account, c.space, w.sent[opId].message.commit, plan, clock);
      }
    case HandleDelete(opId, clock) =>
      if IsSentDelete(w, opId) {
        var c := w.clients[w.sent[opId].client];
        DeleteGrows(w.server, c.account, c.space, w.sent[opId].message.delete, clock);
      }
    case Receive(opId, response, time) =>
    case Fetch(id) =>
    case Apply(id, done, time) =>
    case Touch(id, path, modTime, time) =>
    case RestoreFile(account, req, actor, clock) => RestoreGrows(w.server, account, req, actor, clock);
    case PruneTrash(time) => PruneGrows(w.server, time);
    case UploadChunk(account, hash, data) =>
      var s := PutChunk(w.server, hash, data).0;
      PutChunkGrows(w.server, hash, data);
      GrantGrows(s, account, hash);
      GrowsTransitive(w.server, s, GrantAccountChunk(s, account, hash).0);
    case SetSpace(account, space, active) => SpacesGrow(w.server, w.server.spaces[(account, space) := active]);
  }

  lemma SpacesGrow(s: Server, spaces: map<(string, string), bool>)
    ensures Grows(s, s.(spaces := spaces))
  {
  }

  /** No run takes back a history, an event, an answer, a chunk file or a grant. */
  lemma {:induction false} RunGrows(w: World, steps: seq<Step>)
    ensures Grows(w.server, Run(w, steps).server)
    decreases |steps|
  {
    hide Grows, Next;
    if steps == [] {
      GrowsReflexive(w.server);
    } else {
      var w1 := Next(w, steps[0]);
      NextGrows(w, steps[0]);
      RunGrows(w1, steps[1..]);
      GrowsTransitive(w.server, w1.server, Run(w1, steps[1..]).server);
    }
  }

  // ---------------------------------------------------------------- repeating a commit

  ghost predicate AllLiveDirs(s: Server, o: Origin, dirs: seq<string>) {
    forall i | 0 <= i < |dirs| :: IsLiveDir(s.files, Key(o.account, o.space, dirs[i]))
  }

  /** Making a parent that is not a live directory always appends an event. */
  lemma MissingParentLogged(s: Server, o: Origin, dir: string, modTime: int, clock: Clock)
    requires !IsLiveDir(s.files, Key(o.account, o.space, dir))
    ensures |CommitEntry(s, o, DirManifest(dir, modTime), dir, Dir, clock).0.log| == |s.log| + 1
  {
    hide CopyKey, CommittedVersion, Land, LandResponse, WithCurrent, History;
    var key := Key(o.account, o.space, dir);
    var m := DirManifest(dir, modTime);
    var s1 := EnsureEntry(s, key);
    LandTables(s1, o, m, key, Dir, clock.now);
    var copy := CopyKey(s1, o, dir, clock);
    LandTables(NewEntry(s1, copy), o, m, copy, Dir, clock.now);
  }

  /** The parents are left alone exactly when all of them are live directories. */
  lemma {:induction false} EnsureParentsIdle(s: Server, o: Origin, dirs: seq<string>, modTime: int, clock: Clock)
    ensures AllLiveDirs(s, o, dirs) ==> EnsureParents(s, o, dirs, modTime, clock) == s
    ensures !AllLiveDirs(s, o, dirs) ==> |EnsureParents(s, o, dirs, modTime, clock).log| > |s.log|
    decreases |dirs|
  {
    hide CommitEntry, LiveDir;
    if dirs != [] {
      assert forall i | 0 <= i < |dirs[1..]| :: dirs[1..][i] == dirs[i + 1];
      if IsLiveDir(s.files, Key(o.account, o.space, dirs[0])) {
        EnsureParentsIdle(s, o, dirs[1..], modTime, clock);
        if AllLiveDirs(s, o, dirs[1..]) {
          forall i | 0 <= i < |dirs| ensures IsLiveDir(s.files, Key(o.account, o.space, dirs[i])) {
            if i > 0 { assert dirs[i] == dirs[1..][i - 1]; }
          }
        }
      } else {
        var s1 := CommitEntry(s, o, DirManifest(dirs[0], modTime), dirs[0], Dir, clock).0;
        MissingParentLogged(s, o, dirs[0], modTime, clock);
        EnsureParentsGrows(s1, o, dirs[1..], modTime, clock);
        assert s1.log <= EnsureParents(s1, o, dirs[1..], modTime, clock).log;
      }
    }
  }

  lemma {:induction false} VerifyFromStable(s: Server, s': Server, account: string, m: Manifest, i: nat, data: Bytes)
    requires Grows(s, s') && i <= |m.chunks| && VerifyFrom(s, account, m, i, data).Ok?
    ensures VerifyFrom(s', account, m, i, data) == VerifyFrom(s, account, m, i, data)
    decreases |m.chunks| - i
  {
    hide VersionsGrow, OpsGrow;
    if i < |m.chunks| { VerifyFromStable(s, s', account, m, i + 1, data + s.chunks[m.chunks[i].hash]); }
  }

  /** A request that once passed the checks passes them again, while the space is active. */
  lemma CheckCommitStable(s: Server, s': Server, account: string, space: string, req: CommitRequest)
    requires Grows(s, s') && CheckCommit(s, account, space, req).Ok? && SpaceActive(s', account, space)
    ensures CheckCommit(s', account, space, req) == CheckCommit(s, account, space, req)
  {
    hide Grows, CleanRel, IsHash, VerifyFrom;
    var m := req.manifest;
    if (m.state.Unset? || m.state.File?) && |m.chunks| > 0 { VerifyFromStable(s, s', account, m, 0, []); }
  }

  /** The locked half of a commit, when it answers, records its answer. */
  lemma CommitRecords(s: Server, account: string, space: string, req: CommitRequest, plan: Plan, clock: Clock)
    requires CommitLocked(s, account, space, req, plan, clock).1.Ok?
    ensures var (s', r) := CommitLocked(s, account, space, req, plan, clock);
            var op := Key(account, space, req.opId);
            op in s'.ops && s'.ops[op] == r.value
  {
    hide EnsureParents, CommitEntry, Ancestors;
  }

  lemma GrantsGrow(s: Server, s': Server)
    requires Grows(s, s')
    ensures s.grants <= s'.grants && OpsGrow(s.ops, s'.ops)
  {
  }

  /** A commit whose halves were handled with anything in between (checked in `s0`, locked in `s1`), delivered again in
      `s` after whatever else happened and while the space is active, is answered with the first answer; it
      changes nothing exactly when all ancestors of its path are still live directories. */
  lemma RedeliveredSplit(s0: Server, s1: Server, s: Server, account: string, space: string, req: CommitRequest,
                         plan: Plan, clock0: Clock, clock: Clock)
    requires CheckCommit(s0, account, space, req) == Ok(plan) && Grows(GrantEmpty(s0, account, req.manifest, plan), s1)
    requires CommitLocked(s1, account, space, req, plan, clock0).1.Ok?
    requires Grows(CommitLocked(s1, account, space, req, plan, clock0).0, s) && SpaceActive(s, account, space)
    ensures CheckCommit(s, account, space, req) == Ok(plan) && GrantEmpty(s, account, req.manifest, plan) == s
    ensures var first := CommitLocked(s1, account, space, req, plan, clock0).1;
            var (s', again) := Commit(s, account, space, req, clock);
            again == first
            && (s' == s <==> AllLiveDirs(s, RequestOrigin(account, space, req.device, req.root), Ancestors(plan.path)))
  {
    hide CheckCommit, EnsureParents, CommitEntry, Ancestors, Grows, AllLiveDirs, CommitLocked;
    var g := GrantEmpty(s0, account, req.manifest, plan);
    var s2 := CommitLocked(s1, account, space, req, plan, clock0).0;
    GrantEmptyGrows(s0, account, req.manifest, plan);
    CommitLockedGrows(s1, account, space, req, plan, clock0);
    CommitRecords(s1, account, space, req, plan, clock0);
    GrowsTransitive(g, s1, s2);
    GrowsTransitive(g, s2, s);
    GrowsTransitive(s0, g, s);
    CheckCommitStable(s0, s, account, space, req);
    GrantsGrow(g, s);
    GrantsGrow(s2, s);
    AlreadyGranted(s, account, req.manifest, plan);
    AnsweredAgain(s, account, space, req, plan, clock);
  }

  /** The same for a commit first handled in one go. */
  lemma RedeliveredCommit(s0: Server, s: Server, account: string, space: string, req: CommitRequest, clock0: Clock,
                          clock: Clock)
    requires Commit(s0, account, space, req, clock0).1.Ok?
    requires Grows(Commit(s0, account, space, req, clock0).0, s) && SpaceActive(s, account, space)
    ensures var first := Commit(s0, account, space, req, clock0).1;
            var (s', again) := Commit(s, account, space, req, clock);
            var plan := CheckCommit(s, account, space, req);
            again == first && plan.Ok?
            && (s' == s
                <==> AllLiveDirs(s, RequestOrigin(account, space, req.device, req.root), Ancestors(plan.value.path)))
  {
    hide CheckCommit, Ancestors, Grows, AllLiveDirs, CommitLocked, GrantEmpty;
    var plan := CheckCommit(s0, account, space, req).value;
    var s1 := GrantEmpty(s0, account, req.manifest, plan);
    GrowsReflexive(s1);
    RedeliveredSplit(s0, s1, s, account, space, req, plan, clock0, clock);
  }

  lemma AlreadyGranted(s: Server, account: string, m: Manifest, plan: Plan)
    requires plan.state.File? && |m.chunks| == 0 ==> (account, m.hash) in s.grants
    ensures GrantEmpty(s, account, m, plan) == s
  {
  }

  lemma AnsweredAgain(s: Server, account: string, space: string, req: CommitRequest, plan: Plan, clock: Clock)
    requires Key(account, space, req.opId) in s.ops
    ensures var (s', r) := CommitLocked(s, account, space, req, plan, clock);
            r == Ok(s.ops[Key(account, space, req.opId)])
            && (s' == s <==> AllLiveDirs(s, RequestOrigin(account, space, req.device, req.root), Ancestors(plan.path)))
  {
    hide EnsureParents, CommitEntry, Ancestors, Grows, AllLiveDirs;
    var o := RequestOrigin(account, space, req.device, req.root);
    EnsureParentsSides(s, o, Ancestors(plan.path), req.manifest.modTime, clock);
    EnsureParentsIdle(s, o, Ancestors(plan.path), req.manifest.modTime, clock);
  }

  // ---------------------------------------------------------------- repeating a deletion

  lemma DeleteRecords(s: Server, account: string, space: string, req: DeleteRequest, clock: Clock)
    requires Delete(s, account, space, req, clock).1.Ok?
    ensures var (s', r) := Delete(s, account, space, req, clock);
            var op := Key(account, space, req.opId);
            op in s'.ops && s'.ops[op] == r.value && req.opId != "" && req.device != "" && req.path != ""
  {
  }

  /** A deletion delivered again, while the space is active, is answered with the first answer and changes
      nothing at all. */
  lemma RedeliveredDelete(s0: Server, s: Server, account: string, space: string, req: DeleteRequest, clock0: Clock,
                          clock: Clock)
    requires Delete(s0, account, space, req, clock0).1.Ok?
    requires Grows(Delete(s0, account, space, req, clock0).0, s) && SpaceActive(s, account, space)
    ensures Delete(s, account, space, req, clock) == (s, Delete(s0, account, space, req, clock0).1)
  {
    DeleteRecords(s0, account, space, req, clock0);
    GrantsGrow(Delete(s0, account, space, req, clock0).0, s);
    hide Grows, Install, Tombstone, CleanRel, SpaceActive;
    assert Key(account, space, req.opId) in s.ops;
    RecordedDelete(s, account, space, req, clock);
  }

  lemma RecordedDelete(s: Server, account: string, space: string, req: DeleteRequest, clock: Clock)
    requires Key(account, space, req.opId) in s.ops && SpaceActive(s, account, space)
    requires req.opId != "" && req.device != "" && req.path != ""
    ensures Delete(s, account, space, req, clock) == (s, Ok(s.ops[Key(account, space, req.opId)]))
  {
  }
}
