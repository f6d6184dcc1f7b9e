/** Requests of the protocol that are handled more than once (internal/client/api.go, internal/server/store.go). */
module AtLeastOnce {
  import opened Model
  import opened Paths
  import opened StoreSpec
  import opened StoreInvariant
  import opened StoreGrowth
  import opened StoreCommit
  import opened NoLostUpdate
  import opened SyncProtocol
  import opened Redelivery

  /** The server with the space active. */
  function Activated(s: Server, account: string, space: string): Server {
    s.(spaces := s.spaces[(account, space) := true])
  }

  lemma ActiveAlready(s: Server, account: string, space: string)
    requires SpaceActive(s, account, space)
    ensures Activated(s, account, space) == s
  {
  }

  /** The request passes the checks with this plan, as long as its space is active, and has nothing left to grant. */
  ghost predicate Passes(s: Server, c: Client, req: CommitRequest, plan: Plan) {
    CheckCommit(Activated(s, c.account, c.space), c.account, c.space, req) == Ok(plan)
    && GrantEmpty(s, c.account, req.manifest, plan) == s
  }

  ghost predicate CheckedPass(w: World) {
    forall x | x in w.checked ::
      IsSentCommit(w, x.0) && Passes(w.server, w.clients[w.sent[x.0].client], w.sent[x.0].message.commit, x.1)
  }

  lemma PassesStill(s: Server, s': Server, c: Client, req: CommitRequest, plan: Plan)
    requires Grows(s, s') && Passes(s, c, req, plan)
    ensures Passes(s', c, req, plan)
  {
    hide CheckCommit, VersionsGrow, OpsGrow, ChunksGrow;
    CheckCommitStable(Activated(s, c.account, c.space), Activated(s', c.account, c.space), c.account, c.space, req);
  }

  lemma CheckedPasses(s: Server, c: Client, req: CommitRequest)
    requires CheckCommit(s, c.account, c.space, req).Ok?
    ensures var plan := CheckCommit(s, c.account, c.space, req).value;
            SpaceActive(s, c.account, c.space) && Passes(GrantEmpty(s, c.account, req.manifest, plan), c, req, plan)
  {
    var plan := CheckCommit(s, c.account, c.space, req).value;
    var g := GrantEmpty(s, c.account, req.manifest, plan);
    GrantEmptyGrows(s, c.account, req.manifest, plan);
    assert SpaceActive(s, c.account, c.space) && g.spaces == s.spaces;
    hide CheckCommit, Grows;
    CheckCommitStable(s, g, c.account, c.space, req);
    ActiveAlready(g, c.account, c.space);
  }

  /** No step changes what was sent or forgets what was checked. */
  lemma NextFrame(w: World, step: Step)
    ensures var w' := Next(w, step);
            w'.clients == w.clients && (forall op | op in w.sent :: op in w'.sent && w'.sent[op] == w.sent[op])
            && w.replies <= w'.replies && w.checked <= w'.checked && (!step.CheckSent? ==> w'.checked == w.checked)
  {
    hide CheckCommit, GrantEmpty, CommitLocked, Delete, Restore, Prune, PutChunk, GrantAccountChunk, Recorded, Applied,
         Upload, Removal, EventsAfter, IsClean, Touched;
  }

  lemma NextPasses(w: World, step: Step)
    requires CheckedPass(w)
    ensures CheckedPass(Next(w, step))
  {
    NextFrame(w, step);
    NextGrows(w, step);
    if step.CheckSent? {
      var opId := step.opId;
      if IsSentCommit(w, opId) {
        var c, req := w.clients[w.sent[opId].client], w.sent[opId].message.commit;
        if CheckCommit(w.server, c.account, c.space, req).Ok? { CheckedPasses(w.server, c, req); }
      }
    }
    var w' := Next(w, step);
    forall x | x in w.checked
      ensures IsSentCommit(w', x.0)
      ensures Passes(w'.server, w'.clients[w'.sent[x.0].client], w'.sent[x.0].message.commit, x.1)
    {
      hide Next, Passes, Grows;
      PassesStill(w.server, w'.server, w.clients[w.sent[x.0].client], w.sent[x.0].message.commit, x.1);
    }
  }

  /** Along any run: what was sent stays, and what was checked still passes. */
  lemma {:induction false} RunPasses(w: World, steps: seq<Step>)
    ensures var w' := Run(w, steps);
            w'.clients == w.clients && w.checked <= w'.checked && w.replies <= w'.replies
            && (forall op | op in w.sent :: op in w'.sent && w'.sent[op] == w.sent[op])
            && (CheckedPass(w) ==> CheckedPass(w'))
    decreases |steps|
  {
    hide Next, CheckedPass;
    if steps != [] {
      NextFrame(w, steps[0]);
      if CheckedPass(w) { NextPasses(w, steps[0]); }
      RunPasses(Next(w, steps[0]), steps[1..]);
    }
  }

  /** The world after a commit was first handled and answered, and anything happened since. */
  ghost function Since(w: World, opId: string, plan: Plan, clock: Clock, steps: seq<Step>): World {
    Run(Next(w, HandleCommit(opId, plan, clock)), steps)
  }

  /** A commit checked and handled as separate steps of any run, with anything before, between and after, and handled
      again: the same answer is sent, and the server changes exactly if an ancestor of the path is no live
      directory.  While the space is active the check, repeated too, passes with the same plan and changes
      nothing, so the same holds of a request delivered again from the start. */
  lemma CommitHandledAgain(w0: World, before: seq<Step>, opId: string, plan: Plan, clock0: Clock, after: seq<Step>,
                           clock: Clock)
    requires Initial(w0)
    requires var w := Run(w0, before);
             IsSentCommit(w, opId) && (opId, plan) in w.checked
             && var c := w.clients[w.sent[opId].client];
                CommitLocked(w.server, c.account, c.space, w.sent[opId].message.commit, plan, clock0).1.Ok?
    ensures var w := Run(w0, before);
            var c, req := w.clients[w.sent[opId].client], w.sent[opId].message.commit;
            var first := CommitLocked(w.server, c.account, c.space, req, plan, clock0).1.value;
            var w2 := Since(w, opId, plan, clock0, after);
            var w3 := Next(w2, HandleCommit(opId, plan, clock));
            (opId, first) in w2.replies && w3.replies == w2.replies
            && (w3.server == w2.server
                <==> AllLiveDirs(w2.server, RequestOrigin(c.account, c.space, req.device, req.root),
                                 Ancestors(plan.path)))
    ensures var w := Run(w0, before);
            var c, req := w.clients[w.sent[opId].client], w.sent[opId].message.commit;
            var w2 := Since(w, opId, plan, clock0, after);
            SpaceActive(w2.server, c.account, c.space) ==>
              Next(w2, CheckSent(opId)) == w2
              && Commit(w2.server, c.account, c.space, req, clock)
                 == CommitLocked(w2.server, c.account, c.space, req, plan, clock)
  {
    hide Run, Next, CheckedPass, CommitLocked, AllLiveDirs, Ancestors, CheckCommit, GrantEmpty, SpaceActive, Commit;
    InitialPasses(w0);
    RunPasses(w0, before);
    var w := Run(w0, before);
    var w1 := Next(w, HandleCommit(opId, plan, clock0));
    FirstAnswer(w, opId, plan, clock0);
    NextPasses(w, HandleCommit(opId, plan, clock0));
    RunPasses(w1, after);
    RunGrows(w1, after);
    AgainAnswered(w, w1, Run(w1, after), opId, plan, clock0, clock);
    CheckedAgain(Run(w1, after), opId, plan, clock);
  }

  lemma InitialPasses(w: World)
    requires Initial(w)
    ensures CheckedPass(w)
  {
  }

  lemma FirstAnswer(w: World, opId: string, plan: Plan, clock: Clock)
    requires IsSentCommit(w, opId) && (opId, plan) in w.checked
    requires var c := w.clients[w.sent[opId].client];
             CommitLocked(w.server, c.account, c.space, w.sent[opId].message.commit, plan, clock).1.Ok?
    ensures var c := w.clients[w.sent[opId].client];
            var (s, r) := CommitLocked(w.server, c.account, c.space, w.sent[opId].message.commit, plan, clock);
            var w' := Next(w, HandleCommit(opId, plan, clock));
            w' == w.(server := s, replies := w.replies + {(opId, r.value)})
  {
  }

  lemma AgainAnswered(w: World, w1: World, w2: World, opId: string, plan: Plan, clock0: Clock, clock: Clock)
    requires IsSentCommit(w, opId) && (opId, plan) in w.checked
    requires var c := w.clients[w.sent[opId].client];
             var (s, r) := CommitLocked(w.server, c.account, c.space, w.sent[opId].message.commit, plan, clock0);
             r.Ok? && w1 == w.(server := s, replies := w.replies + {(opId, r.value)})
    requires w2.clients == w1.clients && opId in w2.sent && w2.sent[opId] == w1.sent[opId]
    requires w1.checked <= w2.checked && w1.replies <= w2.replies && Grows(w1.server, w2.server)
    ensures var c, req := w.clients[w.sent[opId].client], w.sent[opId].message.commit;
            var first := CommitLocked(w.server, c.account, c.space, req, plan, clock0).1.value;
            var w3 := Next(w2, HandleCommit(opId, plan, clock));
            (opId, first) in w2.replies && w3.replies == w2.replies
            && (w3.server == w2.server
                <==> AllLiveDirs(w2.server, RequestOrigin(c.account, c.space, req.device, req.root),
                                 Ancestors(plan.path)))
  {
    hide CommitLocked, AllLiveDirs, Ancestors, Grows;
    var c, req := w.clients[w.sent[opId].client], w.sent[opId].message.commit;
    CommitRecords(w.server, c.account, c.space, req, plan, clock0);
    GrantsGrow(w1.server, w2.server);
    AnsweredAgain(w2.server, c.account, c.space, req, plan, clock);
    FirstAnswer(w2, opId, plan, clock);
  }

  lemma CheckedAgain(w: World, opId: string, plan: Plan, clock: Clock)
    requires CheckedPass(w) && IsSentCommit(w, opId) && (opId, plan) in w.checked
    ensures var c, req := w.clients[w.sent[opId].client], w.sent[opId].message.commit;
            SpaceActive(w.server, c.account, c.space) ==>
              Next(w, CheckSent(opId)) == w
              && Commit(w.server, c.account, c.space, req, clock)
                 == CommitLocked(w.server, c.account, c.space, req, plan, clock)
  {
    hide CheckCommit, GrantEmpty, CommitLocked, SpaceActive;
    var c, req := w.clients[w.sent[opId].client], w.sent[opId].message.commit;
    assert Passes(w.server, c, req, (opId, plan).1);
    if SpaceActive(w.server, c.account, c.space) {
      ActiveAlready(w.server, c.account, c.space);
      assert w.checked + {(opId, plan)} == w.checked;
    }
  }

  /** A deletion handled in any run and handled again after anything else, while its space is active, sends the same
      answer and changes nothing. */
  lemma DeleteHandledAgain(w: World, opId: string, clock0: Clock, after: seq<Step>, clock: Clock)
    requires IsSentDelete(w, opId)
    requires var c := w.clients[w.sent[opId].client];
             Delete(w.server, c.account, c.space, w.sent[opId].message.delete, clock0).1.Ok?
             && SpaceActive(Run(Next(w, HandleDelete(opId, clock0)), after).server, c.account, c.space)
    ensures var c, req := w.clients[w.sent[opId].client], w.sent[opId].message.delete;
            var w2 := Run(Next(w, HandleDelete(opId, clock0)), after);
            (opId, Delete(w.server, c.account, c.space, req, clock0).1.value) in w2.replies
            && Next(w2, HandleDelete(opId, clock)) == w2
  {
    hide Run, Delete, SpaceActive, Grows;
    var c, req := w.clients[w.sent[opId].client], w.sent[opId].message.delete;
    var w1 := Next(w, HandleDelete(opId, clock0));
    var r := Delete(w.server, c.account, c.space, req, clock0).1;
    assert w1.server == Delete(w.server, c.account, c.space, req, clock0).0 && (opId, r.value) in w1.replies;
    RunPasses(w1, after);
    RunGrows(w1, after);
    var w2 := Run(w1, after);
    RedeliveredDelete(w.server, w2.server, c.account, c.space, req, clock0, clock);
    assert w2.replies + {(opId, r.value)} == w2.replies;
  }

  /** An ancestor that has a version but is no live directory is not revived by a commit below it: it is still none
      afterwards, and however often the request is delivered, each time some other entry is made in its stead. */
  lemma ParentNotRevived(s: Server, account: string, space: string, req: CommitRequest, plan: Plan, i: nat,
                         clock: Clock)
    requires Inv(s) && Ready(s, account, req.manifest, plan) && i < |Ancestors(plan.path)|
    requires var key := Key(account, space, Ancestors(plan.path)[i]);
             key in s.files && s.files[key].current.Some? && !IsLiveDir(s.files, key)
    ensures var key := Key(account, space, Ancestors(plan.path)[i]);
            var s' := CommitLocked(s, account, space, req, plan, clock).0;
            key in s'.files && s'.files[key] == s.files[key] && |s'.log| > |s.log|
  {
    hide Inv, IsClean, Ancestors, EnsureParents, CommitEntry, LiveDir;
    var o := RequestOrigin(account, space, req.device, req.root);
    AncestorsClean(plan.path, i);
    CommitLosesNothing(s, account, space, req, plan, clock);
    EnsureParentsIdle(s, o, Ancestors(plan.path), req.manifest.modTime, clock);
    CommitEntryGrows(AfterParents(s, account, space, req, plan, clock), o, req.manifest, plan.path, plan.state, clock);
  }
}
