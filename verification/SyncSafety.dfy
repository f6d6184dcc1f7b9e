/** What holds in every run of the protocol. */
module SyncSafety {
  import opened Model
  import opened Paths
  import opened ClientRecords
  import opened StoreSpec
  import opened StoreInvariant
  import opened StoreGrowth
  import opened StoreCommit
  import opened StoreTrash
  import opened NoLostUpdate
  import opened ChunkRefs
  import opened SyncProtocol

  type Versions = map<Id, seq<FileVersion>>

  // ---------------------------------------------------------------- the invariant

  /** A request carries no base, or the ids of a stored version of its path. */
  ghost predicate MessageOk(versions: Versions, c: Client, opId: string, m: Message) {
    match m
    case CommitMessage(req) =>
      req.opId == opId && IsClean(req.manifest.path)
      && ((req.manifest.fileId == NoId && req.manifest.base == NoId)
          || Names(versions, Key(c.account, c.space, req.manifest.path), req.manifest.fileId, req.manifest.base))
    case DeleteMessage(req) =>
      req.opId == opId && IsClean(req.path)
      && Names(versions, Key(c.account, c.space, req.path), req.fileId, req.base)
  }

  ghost predicate SentOk(versions: Versions, clients: map<nat, Client>, sent: map<string, Sent>) {
    forall op | op in sent :: sent[op].client in clients
                              && MessageOk(versions, clients[sent[op].client], op, sent[op].message)
  }

  /** An answer fits the request it answers. */
  ghost predicate ReplyOk(versions: Versions, c: Client, m: Message, r: CommitResponse) {
    match m
    case CommitMessage(req) =>
      r.version.Some? && InHistory(versions, r.version.value)
      && r.version.value.account == c.account && r.version.value.space == c.space
    case DeleteMessage(req) =>
      r.status.StatusOk? ==>
        r.version.Some? && InHistory(versions, r.version.value)
        && KeyOf(r.version.value) == Key(c.account, c.space, req.path) && r.version.value.fileId == req.fileId
  }

  ghost predicate Answered(versions: Versions, clients: map<nat, Client>, sent: map<string, Sent>, op: string,
                           r: CommitResponse) {
    op in sent && sent[op].client in clients
    && ReplyOk(versions, clients[sent[op].client], sent[op].message, r)
  }

  ghost predicate OpsAnswer(versions: Versions, clients: map<nat, Client>, sent: map<string, Sent>,
                            ops: map<Key, CommitResponse>) {
    forall k | k in ops :: Answered(versions, clients, sent, k.name, ops[k])
  }

  ghost predicate RepliesOk(versions: Versions, clients: map<nat, Client>, sent: map<string, Sent>,
                            replies: set<(string, CommitResponse)>) {
    forall x | x in replies :: Answered(versions, clients, sent, x.0, x.1)
  }

  ghost predicate CheckedOk(s: Server, clients: map<nat, Client>, sent: map<string, Sent>,
                            checked: set<(string, Plan)>) {
    forall x | x in checked ::
      x.0 in sent && sent[x.0].client in clients && sent[x.0].message.CommitMessage?
      && Ready(s, clients[sent[x.0].client].account, sent[x.0].message.commit.manifest, x.1)
      && x.1.path == sent[x.0].message.commit.manifest.path
  }

  /** Every record names a stored version of its own path. */
  ghost predicate RecordsOk(versions: Versions, c: Client, records: map<string, LocalFileState>) {
    forall p | p in records :: Names(versions, Key(c.account, c.space, p), records[p].fileId, records[p].versionId)
  }

  ghost predicate InboxOk(versions: Versions, c: Client, inbox: seq<Event>) {
    forall i | 0 <= i < |inbox| ::
      InHistory(versions, inbox[i].version)
      && inbox[i].version.account == c.account && inbox[i].version.space == c.space
  }

  ghost predicate LocalsOk(versions: Versions, clients: map<nat, Client>, locals: map<nat, Local>) {
    forall id | id in locals :: id in clients && RecordsOk(versions, clients[id], locals[id].records)
                                && InboxOk(versions, clients[id], locals[id].inbox)
  }

  ghost predicate WorldOk(w: World) {
    Inv(w.server) && Conserved(w.server)
    && SentOk(w.server.versions, w.clients, w.sent)
    && OpsAnswer(w.server.versions, w.clients, w.sent, w.server.ops)
    && RepliesOk(w.server.versions, w.clients, w.sent, w.replies)
    && CheckedOk(w.server, w.clients, w.sent, w.checked)
    && LocalsOk(w.server.versions, w.clients, w.locals)
  }

  // ---------------------------------------------------------------- growth of the server

  lemma SentGrows(v: Versions, v': Versions, clients: map<nat, Client>, sent: map<string, Sent>)
    requires VersionsGrow(v, v') && SentOk(v, clients, sent)
    ensures SentOk(v', clients, sent)
  {
  }

  lemma AnsweredGrows(v: Versions, v': Versions, clients: map<nat, Client>, sent: map<string, Sent>, op: string,
                      r: CommitResponse)
    requires VersionsGrow(v, v') && Answered(v, clients, sent, op, r)
    ensures Answered(v', clients, sent, op, r)
  {
  }

  lemma LocalsGrow(v: Versions, v': Versions, clients: map<nat, Client>, locals: map<nat, Local>)
    requires VersionsGrow(v, v') && LocalsOk(v, clients, locals)
    ensures LocalsOk(v', clients, locals)
  {
  }

  lemma CheckedGrows(s: Server, s': Server, clients: map<nat, Client>, sent: map<string, Sent>,
                     checked: set<(string, Plan)>)
    requires Grows(s, s') && CheckedOk(s, clients, sent, checked)
    ensures CheckedOk(s', clients, sent, checked)
  {
    hide Grows, Ready;
    forall x | x in checked
      ensures Ready(s', clients[sent[x.0].client].account, sent[x.0].message.commit.manifest, x.1)
    {
      ReadyStable(s, s', clients[sent[x.0].client].account, sent[x.0].message.commit.manifest, x.1);
    }
  }

  /** Replacing the server by a grown one, with any new answers in its table accounted for. */
  lemma ServerGrows(w: World, s': Server)
    requires WorldOk(w) && Grows(w.server, s') && Inv(s') && Conserved(s')
    requires forall k | k in s'.ops && k !in w.server.ops :: Answered(s'.versions, w.clients, w.sent, k.name, s'.ops[k])
    ensures WorldOk(w.(server := s'))
  {
    hide Inv, Conserved, Answered, SentOk, CheckedOk, LocalsOk, VersionsGrow, ChunksGrow;
    var v, v' := w.server.versions, s'.versions;
    SentGrows(v, v', w.clients, w.sent);
    CheckedGrows(w.server, s', w.clients, w.sent, w.checked);
    LocalsGrow(v, v', w.clients, w.locals);
    forall k | k in s'.ops ensures Answered(v', w.clients, w.sent, k.name, s'.ops[k]) {
      if k in w.server.ops { AnsweredGrows(v, v', w.clients, w.sent, k.name, w.server.ops[k]); }
    }
    forall x | x in w.replies ensures Answered(v', w.clients, w.sent, x.0, x.1) {
      AnsweredGrows(v, v', w.clients, w.sent, x.0, x.1);
    }
  }

  /** The same for a server step that records no answer. */
  lemma QuietServerGrows(w: World, s': Server)
    requires WorldOk(w) && Grows(w.server, s') && Inv(s') && Conserved(s') && s'.ops == w.server.ops
    ensures WorldOk(w.(server := s'))
  {
    hide Inv, Conserved, Grows, Answered;
    ServerGrows(w, s');
  }

  // ---------------------------------------------------------------- client steps

  lemma LocalSet(v: Versions, clients: map<nat, Client>, locals: map<nat, Local>, id: nat, l: Local)
    requires LocalsOk(v, clients, locals) && id in clients
    requires RecordsOk(v, clients[id], l.records) && InboxOk(v, clients[id], l.inbox)
    ensures LocalsOk(v, clients, locals[id := l])
  {
  }

  lemma SendOk(w: World, id: nat, opId: string, m: Message)
    requires WorldOk(w) && id in w.clients && opId !in w.sent
    requires MessageOk(w.server.versions, w.clients[id], opId, m)
    ensures WorldOk(w.(sent := w.sent[opId := Sent(id, m)]))
  {
    hide Inv, Conserved, MessageOk, ReplyOk, Ready, LocalsOk;
  }

  lemma SendCommitOk(w: World, id: nat, opId: string, path: string, scan: Scan)
    requires WorldOk(w)
    ensures WorldOk(Next(w, SendCommit(id, opId, path, scan)))
  {
    hide Inv, Conserved, IsClean, SentOk, OpsAnswer, RepliesOk, CheckedOk, Names;
    if IsClient(w, id) && opId !in w.sent && IsClean(path) {
      SendOk(w, id, opId, CommitMessage(Upload(w.clients[id], w.locals[id].records, opId, path, scan)));
    }
  }

  /** Paths of records are clean, being paths of stored versions. */
  lemma NamedPathClean(s: Server, key: Key, fileId: Id, versionId: Id)
    requires Inv(s) && Names(s.versions, key, fileId, versionId)
    ensures IsClean(key.name)
  {
  }

  lemma SendDeleteOk(w: World, id: nat, opId: string, path: string)
    requires WorldOk(w)
    ensures WorldOk(Next(w, SendDelete(id, opId, path)))
  {
    hide Inv, Conserved, IsClean, SentOk, OpsAnswer, RepliesOk, CheckedOk, Names;
    if IsClient(w, id) && opId !in w.sent && path in w.locals[id].records {
      var known := w.locals[id].records[path];
      NamedPathClean(w.server, Key(w.clients[id].account, w.clients[id].space, path), known.fileId, known.versionId);
      SendOk(w, id, opId, DeleteMessage(Removal(w.clients[id], w.locals[id].records, opId, path)));
    }
  }

  /** A stored version is named by its own ids. */
  lemma InHistoryNames(v: Versions, x: FileVersion)
    requires InHistory(v, x)
    ensures Names(v, KeyOf(x), x.fileId, x.versionId)
  {
  }

  lemma RecordSet(v: Versions, c: Client, records: map<string, LocalFileState>, path: string, r: LocalFileState)
    requires RecordsOk(v, c, records)
    requires Names(v, Key(c.account, c.space, path), r.fileId, r.versionId)
    ensures RecordsOk(v, c, records[path := r])
  {
  }

  lemma RecordedOk(v: Versions, c: Client, records: map<string, LocalFileState>, m: Message, r: CommitResponse,
                   time: int)
    requires RecordsOk(v, c, records) && ReplyOk(v, c, m, r)
    ensures RecordsOk(v, c, Recorded(records, m, r, time))
  {
  }

  lemma ReceiveOk(w: World, opId: string, r: CommitResponse, time: int)
    requires WorldOk(w)
    ensures WorldOk(Next(w, Receive(opId, r, time)))
  {
    hide Inv, Conserved, SentOk, OpsAnswer, CheckedOk, RecordsOk, InboxOk, ReplyOk, Recorded;
    if opId in w.sent && w.sent[opId].client in w.locals && (opId, r) in w.replies {
      var id := w.sent[opId].client;
      assert Answered(w.server.versions, w.clients, w.sent, (opId, r).0, (opId, r).1);
      RecordedOk(w.server.versions, w.clients[id], w.locals[id].records, w.sent[opId].message, r, time);
      var records := Recorded(w.locals[id].records, w.sent[opId].message, r, time);
      LocalSet(w.server.versions, w.clients, w.locals, id, w.locals[id].(records := records));
    }
  }

  lemma {:induction false} FilterInHistory(s: Server, events: seq<Event>, c: Client, after: nat)
    requires forall i | 0 <= i < |events| :: InHistory(s.versions, events[i].version)
    ensures InboxOk(s.versions, c, FilterEvents(events, c.account, c.space, after))
  {
    hide InHistory;
    if events != [] { FilterInHistory(s, events[..|events| - 1], c, after); }
  }

  lemma FetchOk(w: World, id: nat)
    requires WorldOk(w)
    ensures WorldOk(Next(w, Fetch(id)))
  {
    hide HistoriesOk, UniqueVersionIds, FilesOk, ReplayOk, ContentOk, OpsOk, ChunksOk, DistinctFileIds;
    hide Conserved, SentOk, OpsAnswer, RepliesOk, CheckedOk, InHistory, Names, FilterEvents;
    if IsClient(w, id) {
      var c, l := w.clients[id], w.locals[id];
      forall i | 0 <= i < |w.server.events| ensures InHistory(w.server.versions, w.server.events[i].version) {
        assert w.server.events[i] == w.server.log[|w.server.log| - |w.server.events| + i];
      }
      FilterInHistory(w.server, w.server.events, c, l.cursor);
      LocalSet(w.server.versions, w.clients, w.locals, id,
               l.(inbox := EventsAfter(w.server, c.account, c.space, l.cursor)));
    }
  }

  lemma AppliedOk(s: Server, c: Client, l: Local, done: bool, time: int)
    requires Inv(s) && RecordsOk(s.versions, c, l.records) && InboxOk(s.versions, c, l.inbox)
    ensures var l' := Applied(c, l, done, time);
            RecordsOk(s.versions, c, l'.records) && InboxOk(s.versions, c, l'.inbox)
  {
    hide Inv, InHistory, Names, CleanRel, IsClean;
    if l.inbox != [] {
      var x := l.inbox[0].version;
      assert InHistory(s.versions, x) && x.account == c.account && x.space == c.space;
      InHistoryNames(s.versions, x);
      NamedPathClean(s, KeyOf(x), x.fileId, x.versionId);
      CleanRelFixpoint(x.path);
      RecordSet(s.versions, c, l.records, x.path, StateFromVersion(x, time));
      forall i | 0 <= i < |l.inbox[1..]|
        ensures InHistory(s.versions, l.inbox[1..][i].version)
                && l.inbox[1..][i].version.account == c.account && l.inbox[1..][i].version.space == c.space
      {
        assert l.inbox[1..][i] == l.inbox[i + 1];
      }
    }
  }

  lemma ApplyOk(w: World, id: nat, done: bool, time: int)
    requires WorldOk(w)
    ensures WorldOk(Next(w, Apply(id, done, time)))
  {
    hide Inv, Conserved, SentOk, OpsAnswer, RepliesOk, CheckedOk, RecordsOk, InboxOk, Applied;
    if IsClient(w, id) {
      AppliedOk(w.server, w.clients[id], w.locals[id], done, time);
      LocalSet(w.server.versions, w.clients, w.locals, id, Applied(w.clients[id], w.locals[id], done, time));
    }
  }

  // ---------------------------------------------------------------- server steps

  lemma TouchOk(w: World, id: nat, path: string, modTime: int, time: int)
    requires WorldOk(w)
    ensures WorldOk(Next(w, Touch(id, path, modTime, time)))
  {
    hide Inv, Conserved, SentOk, OpsAnswer, RepliesOk, CheckedOk, InboxOk, Names;
    if IsClient(w, id) {
      var l := w.locals[id];
      LocalSet(w.server.versions, w.clients, w.locals, id, l.(records := Touched(l.records, path, modTime, time)));
    }
  }

  lemma CheckSentOk(w: World, opId: string)
    requires WorldOk(w)
    ensures WorldOk(Next(w, CheckSent(opId)))
  {
    hide Inv, Conserved, OpsAnswer, RepliesOk, LocalsOk, CheckCommit, GrantEmpty, Ready, Grows, IsClean, CleanRel,
         Names;
    if IsSentCommit(w, opId) {
      var c := w.clients[w.sent[opId].client];
      var req := w.sent[opId].message.commit;
      match CheckCommit(w.server, c.account, c.space, req)
      case Err(_) =>
      case Ok(plan) =>
        var s' := GrantEmpty(w.server, c.account, req.manifest, plan);
        CheckCommitSound(w.server, c.account, c.space, req);
        GrantEmptyInv(w.server, c.account, req.manifest, plan);
        GrantEmptyGrows(w.server, c.account, req.manifest, plan);
        GrantEmptyCounts(w.server, c.account, req.manifest, plan);
        SameCountsConserves(w.server, s');
        QuietServerGrows(w, s');
        ReadyStable(w.server, s', c.account, req.manifest, plan);
        assert MessageOk(w.server.versions, c, opId, w.sent[opId].message);
        CleanRelFixpoint(req.manifest.path);
    }
  }

  lemma GrantEmptyCounts(s: Server, account: string, m: Manifest, plan: Plan)
    ensures SameCounts(s, GrantEmpty(s, account, m, plan)) && GrantEmpty(s, account, m, plan).ops == s.ops
  {
  }

  /** What the locked part of a commit adds to the table of answers, and what it answers. */
  lemma CommitLockedAnswers(s: Server, account: string, space: string, req: CommitRequest, plan: Plan, clock: Clock)
    requires Inv(s) && Ready(s, account, req.manifest, plan)
    ensures var (s', r) := CommitLocked(s, account, space, req, plan, clock);
            var op := Key(account, space, req.opId);
            if op in s.ops then s'.ops == s.ops && r == Ok(s.ops[op])
            else if r.Err? then s'.ops == s.ops
            else s'.ops == s.ops[op := r.value]
                 && Answers(s', RequestOrigin(account, space, req.device, req.root), r)
  {
    hide Inv, IsClean, EnsureParents, Ancestors, CommitEntry, FreshEntries, Grows, Kept, Ready, InHistory;
    var s1 := AfterParents(s, account, space, req, plan, clock);
    var o := RequestOrigin(account, space, req.device, req.root);
    ReadyPath(s, account, req.manifest, plan);
    AfterParentsInv(s, account, space, req, plan, clock);
    ReadyStable(s, s1, account, req.manifest, plan);
    CommitEntryInv(s1, o, req.manifest, plan.path, plan.state, clock);
    CommitEntrySides(s1, o, req.manifest, plan.path, plan.state, clock);
  }

  lemma ReadyPath(s: Server, account: string, m: Manifest, plan: Plan)
    requires Ready(s, account, m, plan)
    ensures IsClean(plan.path)
  {
  }

  lemma ReplyAdded(w: World, server: Server, opId: string, r: Result<CommitResponse>)
    requires WorldOk(w.(server := server))
    requires r.Ok? ==> Answered(server.versions, w.clients, w.sent, opId, r.value)
    ensures WorldOk(WithReply(w, server, opId, r))
  {
  }

  lemma HandleCommitOk(w: World, opId: string, plan: Plan, clock: Clock)
    requires WorldOk(w)
    ensures WorldOk(Next(w, HandleCommit(opId, plan, clock)))
  {
    hide Inv, Conserved, RepliesOk, LocalsOk, CommitLocked, Ready, Grows, IsClean, Names, InHistory, SentOk;
    if IsSentCommit(w, opId) && (opId, plan) in w.checked {
      var c := w.clients[w.sent[opId].client];
      var req := w.sent[opId].message.commit;
      var (s', r) := CommitLocked(w.server, c.account, c.space, req, plan, clock);
      assert (opId, plan).0 in w.sent;
      SentOpId(w, opId);
      CommitLockedInv(w.server, c.account, c.space, req, plan, clock);
      CommitLockedGrows(w.server, c.account, c.space, req, plan, clock);
      CommitLockedConserves(w.server, c.account, c.space, req, plan, clock);
      CommitLockedAnswers(w.server, c.account, c.space, req, plan, clock);
      AnsweredNow(w, opId, s', r, Key(c.account, c.space, opId));
      ServerGrows(w, s');
      ReplyAdded(w, s', opId, r);
    }
  }

  lemma SentOpId(w: World, opId: string)
    requires SentOk(w.server.versions, w.clients, w.sent) && opId in w.sent
    ensures var m := w.sent[opId].message;
            (if m.CommitMessage? then m.commit.opId else m.delete.opId) == opId
  {
  }

  /** Either the answer was recorded before and fits, or it is new and fits. */
  lemma AnsweredNow(w: World, opId: string, s': Server, r: Result<CommitResponse>, op: Key)
    requires OpsAnswer(w.server.versions, w.clients, w.sent, w.server.ops) && Grows(w.server, s')
    requires op.name == opId && opId in w.sent && w.sent[opId].client in w.clients
    requires op in w.server.ops ==> r == Ok(w.server.ops[op])
    requires op !in w.server.ops && r.Ok? ==>
               ReplyOk(s'.versions, w.clients[w.sent[opId].client], w.sent[opId].message, r.value)
    ensures r.Ok? ==> Answered(s'.versions, w.clients, w.sent, opId, r.value)
  {
  }

  lemma DeleteAnswers(s: Server, account: string, space: string, req: DeleteRequest, clock: Clock)
    requires Inv(s) && IsClean(req.path) && req.fileId != NoId
    ensures var (s', r) := Delete(s, account, space, req, clock);
            var op := Key(account, space, req.opId);
            if r.Err? then s' == s
            else if op in s.ops then s' == s && r == Ok(s.ops[op])
            else s'.ops == s.ops[op := r.value]
                 && (r.value.status.StatusOk? ==>
                       r.value.version.Some? && InHistory(s'.versions, r.value.version.value)
                       && KeyOf(r.value.version.value) == Key(account, space, req.path)
                       && r.value.version.value.fileId == req.fileId)
  {
    hide Inv, SpaceActive, Install, InHistory;
    CleanRelFixpoint(req.path);
    hide IsClean, CleanRel;
    var key := Key(account, space, req.path);
    if key in s.files && req.fileId == s.files[key].fileId {
      var e := s.files[key];
      if e.current.Some? {
        CurrentVersion(s, key);
      }
      if e.current.None? || (req.base == e.current.value.versionId && !e.current.value.state.Deleted?) {
        var o := RequestOrigin(account, space, req.device, req.root);
        var v := Tombstone(o, key, e, req.base, Issued(s.nextId), clock.now);
        InstallTombstoneInv(s, key, o, req.base, clock.now);
        InstallCurrent(s, key, v);
      }
    }
  }

  lemma CurrentVersion(s: Server, key: Key)
    requires Inv(s) && key in s.files && s.files[key].current.Some?
    ensures var v := s.files[key].current.value;
            InHistory(s.versions, v) && KeyOf(v) == key && v.fileId == s.files[key].fileId
  {
  }

  lemma HandleDeleteOk(w: World, opId: string, clock: Clock)
    requires WorldOk(w)
    ensures WorldOk(Next(w, HandleDelete(opId, clock)))
  {
    hide Inv, Conserved, RepliesOk, CheckedOk, LocalsOk, Delete, Grows, IsClean, Names, InHistory;
    if IsSentDelete(w, opId) {
      var c := w.clients[w.sent[opId].client];
      var req := w.sent[opId].message.delete;
      var (s', r) := Delete(w.server, c.account, c.space, req, clock);
      assert MessageOk(w.server.versions, c, opId, w.sent[opId].message);
      NamedEntryHasVersion(w.server, Key(c.account, c.space, req.path), req.fileId, req.base);
      DeleteInv(w.server, c.account, c.space, req, clock);
      DeleteGrows(w.server, c.account, c.space, req, clock);
      DeleteConserves(w.server, c.account, c.space, req, clock);
      DeleteAnswers(w.server, c.account, c.space, req, clock);
      if r.Ok? { AnsweredNow(w, opId, s', r, Key(c.account, c.space, opId)); }
      ServerGrows(w, s');
      ReplyAdded(w, s', opId, r);
    }
  }

  lemma RestoreOps(s: Server, account: string, req: RestoreRequest, actor: string, clock: Clock)
    ensures Restore(s, account, req, actor, clock).0.ops == s.ops
  {
    hide SpaceActive, CleanRel, RestoreSource, RestoreDevice, RestoreSpace, RestoredVersion;
  }

  lemma RestoreFileOk(w: World, account: string, req: RestoreRequest, actor: string, clock: Clock)
    requires WorldOk(w)
    ensures WorldOk(Next(w, RestoreFile(account, req, actor, clock)))
  {
    hide WorldOk, Inv, Conserved, Restore, Grows;
    WorldServer(w);
    RestoreInv(w.server, account, req, actor, clock);
    RestoreGrows(w.server, account, req, actor, clock);
    RestoreConserves(w.server, account, req, actor, clock);
    RestoreOps(w.server, account, req, actor, clock);
    QuietServerGrows(w, Restore(w.server, account, req, actor, clock).0);
  }

  lemma WorldServer(w: World)
    requires WorldOk(w)
    ensures Inv(w.server) && Conserved(w.server)
  {
  }

  lemma PruneTrashOk(w: World, time: int)
    requires WorldOk(w)
    ensures WorldOk(Next(w, PruneTrash(time)))
  {
    hide WorldOk, Inv, Conserved, Grows;
    WorldServer(w);
    PruneInv(w.server, time);
    PruneGrows(w.server, time);
    SameCountsConserves(w.server, Prune(w.server, time));
    QuietServerGrows(w, Prune(w.server, time));
  }

  lemma UploadChunkOk(w: World, account: string, hash: string, data: Bytes)
    requires WorldOk(w)
    ensures WorldOk(Next(w, UploadChunk(account, hash, data)))
  {
    hide WorldOk, Inv, Conserved, Grows;
    WorldServer(w);
    var s1 := PutChunk(w.server, hash, data).0;
    var s2 := GrantAccountChunk(s1, account, hash).0;
    PutChunkInv(w.server, hash, data);
    PutChunkGrows(w.server, hash, data);
    GrantInv(s1, account, hash);
    GrantGrows(s1, account, hash);
    GrowsTransitive(w.server, s1, s2);
    SameCountsConserves(w.server, s2);
    QuietServerGrows(w, s2);
  }

  lemma SetSpaceOk(w: World, account: string, space: string, active: bool)
    requires WorldOk(w)
    ensures WorldOk(Next(w, SetSpace(account, space, active)))
  {
    hide WorldOk, Inv, Conserved;
    WorldServer(w);
    var spaces := w.server.spaces[(account, space) := active];
    var s' := w.server.(spaces := spaces);
    SpacesInv(w.server, spaces);
    SameCountsConserves(w.server, s');
    GrowsReflexive(w.server);
    QuietServerGrows(w, s');
  }

  // ---------------------------------------------------------------- every run

  lemma NextOk(w: World, step: Step)
    requires WorldOk(w)
    ensures WorldOk(Next(w, step))
  {
    hide WorldOk, Next;
    match step
    case SendCommit(id, opId, path, scan) => SendCommitOk(w, id, opId, path, scan);
    case SendDelete(id, opId, path) => SendDeleteOk(w, id, opId, path);
    case CheckSent(opId) => CheckSentOk(w, opId);
    case HandleCommit(opId, plan, clock) => HandleCommitOk(w, opId, plan, clock);
    case HandleDelete(opId, clock) => HandleDeleteOk(w, opId, clock);
    case Receive(opId, response, time) => ReceiveOk(w, opId, response, time);
    case Fetch(id) => FetchOk(w, id);
    case Apply(id, done, time) => ApplyOk(w, id, done, time);
    case Touch(id, path, modTime, time) => TouchOk(w, id, path, modTime, time);
    case RestoreFile(account, req, actor, clock) => RestoreFileOk(w, account, req, actor, clock);
    case PruneTrash(time) => PruneTrashOk(w, time);
    case UploadChunk(account, hash, data) => UploadChunkOk(w, account, hash, data);
    case SetSpace(account, space, active) => SetSpaceOk(w, account, space, active);
  }

  lemma {:induction false} RunOk(w: World, steps: seq<Step>)
    requires WorldOk(w)
    ensures WorldOk(Run(w, steps))
    decreases |steps|
  {
    hide WorldOk, Next;
    if steps != [] {
      NextOk(w, steps[0]);
      RunOk(Next(w, steps[0]), steps[1..]);
    }
  }

  lemma InitialOk(w: World)
    requires Initial(w)
    ensures WorldOk(w)
  {
  }
}
