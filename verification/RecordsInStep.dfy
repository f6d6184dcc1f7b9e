/** What a client's records are worth while other clients are at work: each is that of the newest event of its path, or
    that event is still to come (internal/client/sync.go, internal/server/store.go). */
module RecordsInStep {
  import opened Model
  import opened Paths
  import opened Text
  import opened ClientRecords
  import opened StoreSpec
  import opened StoreInvariant
  import opened StoreCommit
  import StoreTrash
  import opened NoLostUpdate
  import opened EventWindow
  import opened ClientEngine
  import opened SyncProtocol
  import opened PushEffects

  // ---------------------------------------------------------------- one record and the last event of its path

  /** The record is that of the last event, up to times and what a tombstone repeats. */
  predicate Tracks(records: Records, p: string, last: Option<FileVersion>) {
    match last
    case None => p !in records
    case Some(v) =>
      p in records && records[p].fileId == v.fileId && records[p].versionId == v.versionId
      && records[p].state == v.state
      && (v.state.File? ==> records[p].hash == v.hash && records[p].size == v.size)
  }

  /** A directory the client was never told of: the server made it for a missing parent, and the client passes over
      its own events. */
  predicate Loose(records: Records, p: string, last: Option<FileVersion>) {
    last.Some? && last.value.state.Dir? && p !in records
  }

  /** The same where the client still has the record of what was there before, and was pruned since. */
  predicate Forlorn(records: Records, p: string, last: Option<FileVersion>) {
    last.Some? && last.value.state.Dir? && p in records && records[p].state.Deleted?
    && records[p].fileId != NoId && records[p].fileId != last.value.fileId
  }

  predicate Settles(records: Records, p: string, last: Option<FileVersion>) {
    Tracks(records, p, last) || Loose(records, p, last) || Forlorn(records, p, last)
  }

  // ---------------------------------------------------------------- events still to come

  /** The event at `p` is another client's, and the cursor has not passed it. */
  predicate Coming(c: Client, log: seq<Event>, cursor: nat, e: Event, p: string) {
    e in log && e.seqNo > cursor && KeyOf(e.version) == PathKey(c, p) && !OwnEvent(c.device, c.root, e)
  }

  ghost predicate Outstanding(c: Client, log: seq<Event>, cursor: nat, p: string) {
    exists e :: Coming(c, log, cursor, e, p)
  }

  /** The newest event of the path is still to come. */
  ghost predicate ToCome(c: Client, log: seq<Event>, cursor: nat, p: string) {
    exists e :: Coming(c, log, cursor, e, p) && LastAt(log, PathKey(c, p)) == Some(e.version)
  }

  /** The record, if there is one, is that of some event of its path. */
  ghost predicate Faithful(c: Client, log: seq<Event>, records: Records, p: string) {
    p in records ==> exists e :: e in log && KeyOf(e.version) == PathKey(c, p) && Tracks(records, p, Some(e.version))
  }

  ghost predicate Tuned(c: Client, log: seq<Event>, cursor: nat, records: Records, p: string) {
    Faithful(c, log, records, p)
    && (ToCome(c, log, cursor, p)
        || (!Outstanding(c, log, cursor, p) && Settles(records, p, LastAt(log, PathKey(c, p)))))
  }

  /** For each path, the newest event is still to come, or nothing is to come and the record is in step. */
  ghost predicate Attuned(c: Client, log: seq<Event>, cursor: nat, records: Records) {
    cursor <= |log| && forall p :: Tuned(c, log, cursor, records, p)
  }

  /** What the server guarantees about its log. */
  ghost predicate LogSane(log: seq<Event>) {
    (forall i | 0 <= i < |log| :: log[i].seqNo == i + 1 && IsClean(log[i].version.path))
    && forall i, j | 0 <= i < j < |log| :: log[i].version.versionId != log[j].version.versionId
  }

  lemma ServerLogSane(s: Server)
    requires Inv(s)
    ensures LogSane(s.log)
  {
    hide UniqueVersionIds, FilesOk, DistinctFileIds, ReplayOk, ChunksOk, ContentOk, OpsOk, IsClean, Follows, Starts;
    forall i | 0 <= i < |s.log| ensures IsClean(s.log[i].version.path) {
      var v := s.log[i].version;
      assert InHistory(s.versions, v);
      assert HistoryOk(v.fileId, s.versions[v.fileId], s.nextId);
    }
    forall i, j | 0 <= i < j < |s.log| ensures s.log[i].version.versionId != s.log[j].version.versionId {
      assert DifferentVersions(s.log, i, j);
    }
  }

  lemma SameEvent(log: seq<Event>, a: Event, b: Event)
    requires LogSane(log) && a in log && b in log && a.version.versionId == b.version.versionId
    ensures a == b
  {
  }

  lemma {:induction false} LastIsMember(log: seq<Event>, key: Key) returns (i: nat)
    requires LastAt(log, key).Some?
    ensures i < |log| && log[i].version == LastAt(log, key).value && KeyOf(log[i].version) == key
    ensures forall j | i < j < |log| :: KeyOf(log[j].version) != key
  {
    var n := |log| - 1;
    if KeyOf(log[n].version) == key {
      i := n;
    } else {
      i := LastIsMember(log[..n], key);
    }
  }

  /** No event of a path is newer than its last. */
  lemma LastIsNewest(log: seq<Event>, key: Key, e: Event, x: Event)
    requires LogSane(log) && LastAt(log, key) == Some(e.version) && e in log
    requires x in log && KeyOf(x.version) == key
    ensures x.seqNo <= e.seqNo
  {
    hide LastAt;
    var i := LastIsMember(log, key);
    SameEvent(log, log[i], e);
    var j :| 0 <= j < |log| && log[j] == x;
  }

  // ---------------------------------------------------------------- a pull, wherever it stops

  /** The answer has, in order and once each, all events of others that are still to come. */
  ghost predicate Answers(c: Client, log: seq<Event>, cursor: nat, answer: seq<Event>) {
    (forall i | 0 <= i < |answer| ::
       answer[i] in log && answer[i].seqNo > cursor && answer[i].version.account == c.account
       && answer[i].version.space == c.space)
    && (forall i, j | 0 <= i < j < |answer| :: answer[i].seqNo < answer[j].seqNo)
    && forall e, p | Coming(c, log, cursor, e, p) :: e in answer
  }

  lemma ComingLater(c: Client, log: seq<Event>, cursor: nat, answer: seq<Event>, e: Event, p: string)
    requires Answers(c, log, cursor, answer) && answer != []
    ensures Coming(c, log, answer[0].seqNo, e, p) <==> Coming(c, log, cursor, e, p) && e != answer[0]
  {
    if Coming(c, log, cursor, e, p) {
      var i :| 0 <= i < |answer| && answer[i] == e;
    }
  }

  lemma AnswersRest(c: Client, log: seq<Event>, cursor: nat, answer: seq<Event>)
    requires Answers(c, log, cursor, answer) && answer != []
    ensures Answers(c, log, answer[0].seqNo, answer[1..])
  {
    forall e, p | Coming(c, log, answer[0].seqNo, e, p) ensures e in answer[1..] {
      ComingLater(c, log, cursor, answer, e, p);
    }
    forall i | 0 <= i < |answer| - 1 ensures answer[1..][i] == answer[i + 1] {}
  }

  /** A path that the passed event does not belong to, or that is the client's own event's. */
  lemma PassedElsewhere(c: Client, log: seq<Event>, cursor: nat, answer: seq<Event>, records: Records,
                        records': Records, p: string)
    requires Answers(c, log, cursor, answer) && answer != [] && Tuned(c, log, cursor, records, p)
    requires KeyOf(answer[0].version) != PathKey(c, p) || OwnEvent(c.device, c.root, answer[0])
    requires (p in records' <==> p in records) && (p in records ==> records'[p] == records[p])
    ensures Tuned(c, log, answer[0].seqNo, records', p)
  {
    hide LastAt, Coming, Answers;
    forall e ensures Coming(c, log, answer[0].seqNo, e, p) == Coming(c, log, cursor, e, p) {
      ComingLater(c, log, cursor, answer, e, p);
      ComingIs(c, log, cursor, e, p);
    }
  }

  lemma ComingIs(c: Client, log: seq<Event>, cursor: nat, e: Event, p: string)
    ensures Coming(c, log, cursor, e, p) ==> KeyOf(e.version) == PathKey(c, p) && !OwnEvent(c.device, c.root, e)
  {
  }

  /** The path of another client's event, once it is recorded. */
  lemma PassedThere(c: Client, log: seq<Event>, cursor: nat, answer: seq<Event>, records: Records, time: int)
    requires LogSane(log) && Answers(c, log, cursor, answer) && answer != []
    requires Tuned(c, log, cursor, records, answer[0].version.path) && !OwnEvent(c.device, c.root, answer[0])
    ensures var e := answer[0];
            Tuned(c, log, e.seqNo, RecordVersion(records, e.version, time), e.version.path)
  {
    hide LastAt, CleanRel, IsClean;
    var e, p := answer[0], answer[0].version.path;
    var records' := RecordVersion(records, e.version, time);
    var key := PathKey(c, p);
    CleanRelFixpoint(p);
    assert Coming(c, log, cursor, e, p);
    var last: Event :| Coming(c, log, cursor, last, p) && LastAt(log, key) == Some(last.version);
    RecordedTracks(c, log, records, e, time);
    ComingLater(c, log, cursor, answer, last, p);
    if last != e {
      assert ToCome(c, log, e.seqNo, p);
    } else {
      forall x ensures !Coming(c, log, e.seqNo, x, p) {
        if Coming(c, log, e.seqNo, x, p) { LastIsNewest(log, key, e, x); }
      }
    }
  }

  lemma RecordedTracks(c: Client, log: seq<Event>, records: Records, e: Event, time: int)
    requires LogSane(log) && e in log && Faithful(c, log, records, e.version.path)
    requires KeyOf(e.version) == PathKey(c, e.version.path) && CleanRel(e.version.path) == Ok(e.version.path)
    ensures Tracks(RecordVersion(records, e.version, time), e.version.path, Some(e.version))
  {
    hide CleanRel, IsClean;
    var p := e.version.path;
    if IsRecorded(records, p, e.version) {
      var x :| x in log && KeyOf(x.version) == PathKey(c, p) && Tracks(records, p, Some(x.version));
      SameEvent(log, x, e);
    }
  }

  /** Wherever a pull stops, the records are attuned; if it gets through, nothing of the others' is still to come. */
  lemma {:induction false} PullTuned(c: Client, log: seq<Event>, answer: seq<Event>, h: Copy, envs: seq<Env>)
    requires LogSane(log) && Answers(c, log, h.cursor, answer) && Attuned(c, log, h.cursor, h.records)
    ensures var (h', done) := PullEvents(h, c.device, c.root, answer, envs);
            Attuned(c, log, h'.cursor, h'.records)
            && (done ==> forall p :: !Outstanding(c, log, h'.cursor, p))
    decreases |answer|
  {
    hide LogSane, Tuned, ApplyVersion, RecordVersion, Coming;
    if answer == [] {
      NothingComing(c, log, h.cursor);
    } else if envs != [] {
      var e := answer[0];
      FirstOfAnswer(c, log, h.cursor, answer);
      AnswersRest(c, log, h.cursor, answer);
      hide Answers;
      if OwnEvent(c.device, c.root, e) {
        forall p ensures Tuned(c, log, e.seqNo, h.records, p) {
          PassedElsewhere(c, log, h.cursor, answer, h.records, h.records, p);
        }
        PullTuned(c, log, answer[1..], Advance(h, e), envs[1..]);
      } else {
        var (h1, done) := ApplyVersion(h, c.device, e.version, envs[0]);
        ApplyRecords(h, c.device, e.version, envs[0]);
        if done {
          forall p ensures Tuned(c, log, e.seqNo, h1.records, p) {
            OnePassed(c, log, h.cursor, answer, h.records, envs[0].now, p);
          }
          PullTuned(c, log, answer[1..], Advance(h1, e), envs[1..]);
        }
      }
    }
  }

  lemma NothingComing(c: Client, log: seq<Event>, cursor: nat)
    requires Answers(c, log, cursor, [])
    ensures forall p :: !Outstanding(c, log, cursor, p)
  {
  }

  lemma FirstOfAnswer(c: Client, log: seq<Event>, cursor: nat, answer: seq<Event>)
    requires LogSane(log) && Answers(c, log, cursor, answer) && answer != []
    ensures cursor < answer[0].seqNo <= |log|
  {
  }

  lemma OnePassed(c: Client, log: seq<Event>, cursor: nat, answer: seq<Event>, records: Records, time: int, p: string)
    requires LogSane(log) && Answers(c, log, cursor, answer) && answer != [] && Attuned(c, log, cursor, records)
             && !OwnEvent(c.device, c.root, answer[0])
    ensures Tuned(c, log, answer[0].seqNo, RecordVersion(records, answer[0].version, time), p)
  {
    hide Tuned, CleanRel, IsClean, Coming;
    var v := answer[0].version;
    assert v.account == c.account && v.space == c.space && IsClean(v.path);
    CleanRelFixpoint(v.path);
    if p == v.path {
      PassedThere(c, log, cursor, answer, records, time);
    } else {
      PassedElsewhere(c, log, cursor, answer, records, RecordVersion(records, v, time), p);
    }
  }

  // ---------------------------------------------------------------- what the server answers

  /** No event of others that is still to come has left the window. */
  predicate NoneMissed(c: Client, s: Server, cursor: nat) {
    forall i | 0 <= i < |s.log| - |s.events| && Wanted(s.log[i], c.account, c.space, cursor) ::
      OwnEvent(c.device, c.root, s.log[i])
  }

  lemma {:induction false} FilterMembers(events: seq<Event>, account: string, space: string, after: nat)
    ensures forall e :: e in FilterEvents(events, account, space, after)
                        <==> e in events && Wanted(e, account, space, after)
  {
    if events != [] {
      var front := events[..|events| - 1];
      FilterMembers(front, account, space, after);
      assert events == front + [events[|events| - 1]];
    }
  }

  predicate StrictlyAscending(events: seq<Event>) {
    forall i, j | 0 <= i < j < |events| :: events[i].seqNo < events[j].seqNo
  }

  lemma StrictSnoc(events: seq<Event>, e: Event)
    requires StrictlyAscending(events) && forall x | x in events :: x.seqNo < e.seqNo
    ensures StrictlyAscending(events + [e])
  {
  }

  lemma {:induction false} FilterStrict(events: seq<Event>, account: string, space: string, after: nat)
    requires StrictlyAscending(events)
    ensures StrictlyAscending(FilterEvents(events, account, space, after))
  {
    if events != [] {
      var front, e := events[..|events| - 1], events[|events| - 1];
      FilterStrict(front, account, space, after);
      FilterMembers(front, account, space, after);
      var kept := FilterEvents(front, account, space, after);
      forall x | x in kept ensures x.seqNo < e.seqNo {
        assert x in front;
        var j :| 0 <= j < |front| && front[j] == x;
        assert events[j] == x;
      }
      hide StrictlyAscending;
      StrictSnoc(kept, e);
    }
  }

  lemma WindowStrict(s: Server)
    requires WindowOk(s.log, s.events, s.lastSeq)
    ensures StrictlyAscending(s.events)
  {
    assert forall i | 0 <= i < |s.events| :: s.events[i] == s.log[|s.log| - |s.events| + i];
  }

  lemma KeptInLog(s: Server, e: Event)
    requires WindowOk(s.log, s.events, s.lastSeq)
    ensures e in s.events ==> e in s.log
    ensures e in s.log ==> e in s.events || exists i :: 0 <= i < |s.log| - |s.events| && s.log[i] == e
  {
    assert forall i | 0 <= i < |s.events| :: s.events[i] == s.log[|s.log| - |s.events| + i];
    if e in s.log {
      var i :| 0 <= i < |s.log| && s.log[i] == e;
      if i >= |s.log| - |s.events| { assert s.events[i - (|s.log| - |s.events|)] == e; }
    }
  }

  lemma ServerAnswers(c: Client, s: Server, cursor: nat)
    requires Inv(s) && NoneMissed(c, s, cursor)
    ensures var answer := EventsAfter(s, c.account, c.space, cursor);
            Answers(c, s.log, cursor, answer) && SortBySeq(answer) == answer
  {
    hide HistoriesOk, UniqueVersionIds, FilesOk, LogOk, ContentOk, OpsOk, ReplayOk, ChunksOk, DistinctFileIds,
         FilterEvents, SortBySeq, WindowOk, StrictlyAscending;
    var answer := EventsAfter(s, c.account, c.space, cursor);
    FilterMembers(s.events, c.account, c.space, cursor);
    WindowStrict(s);
    FilterStrict(s.events, c.account, c.space, cursor);
    forall e ensures e in answer ==> e in s.log && Wanted(e, c.account, c.space, cursor) { KeptInLog(s, e); }
    forall e, p | Coming(c, s.log, cursor, e, p) ensures e in answer {
      KeptInLog(s, e);
      assert Wanted(e, c.account, c.space, cursor);
    }
    InOrder(c, s.log, cursor, answer);
  }

  lemma InOrder(c: Client, log: seq<Event>, cursor: nat, answer: seq<Event>)
    requires StrictlyAscending(answer) && forall e | e in answer :: e in log && Wanted(e, c.account, c.space, cursor)
    requires forall e, p | Coming(c, log, cursor, e, p) :: e in answer
    ensures Answers(c, log, cursor, answer) && SortBySeq(answer) == answer
  {
    hide SortBySeq, Coming;
    forall i | 0 <= i < |answer| ensures answer[i] in log && Wanted(answer[i], c.account, c.space, cursor) {
      assert answer[i] in answer;
    }
    SortedStay(answer);
  }

  // ---------------------------------------------------------------- others at work

  /** Since `s` only others committed to the space. */
  ghost predicate OnlyOthers(c: Client, s: Server, s': Server) {
    s.log <= s'.log
    && forall i | |s.log| <= i < |s'.log| && s'.log[i].version.account == c.account
                  && s'.log[i].version.space == c.space :: !OwnEvent(c.device, c.root, s'.log[i])
  }

  /** The record names the newest event of its path although that is still to come: a directory the server answered
      with, which another client had made. */
  ghost predicate Ahead(c: Client, log: seq<Event>, cursor: nat, records: Records, p: string) {
    ToCome(c, log, cursor, p) && p in records
    && records[p].versionId == LastAt(log, PathKey(c, p)).value.versionId
  }

  /** The last event of a key came since, or nothing came there. */
  ghost predicate CameSince(log: seq<Event>, log': seq<Event>, key: Key) {
    exists i :: |log| <= i < |log'| && KeyOf(log'[i].version) == key && LastAt(log', key) == Some(log'[i].version)
  }

  lemma {:induction false} LastSince(log: seq<Event>, log': seq<Event>, key: Key)
    requires log <= log'
    ensures CameSince(log, log', key)
            || (LastAt(log', key) == LastAt(log, key)
                && forall i | |log| <= i < |log'| :: KeyOf(log'[i].version) != key)
    decreases |log'|
  {
    if log != log' {
      var front := log'[..|log'| - 1];
      LastSince(log, front, key);
      assert forall i | 0 <= i < |front| :: front[i] == log'[i];
      if KeyOf(log'[|log'| - 1].version) == key {
        assert LastAt(log', key) == Some(log'[|log'| - 1].version);
      } else if CameSince(log, front, key) {
        var i :| |log| <= i < |front| && KeyOf(front[i].version) == key && LastAt(front, key) == Some(front[i].version);
        assert log'[i] == front[i];
      }
    }
  }

  lemma FaithfulStill(c: Client, log: seq<Event>, log': seq<Event>, records: Records, p: string)
    requires log <= log' && Faithful(c, log, records, p)
    ensures Faithful(c, log', records, p)
  {
    if p in records {
      var e :| e in log && KeyOf(e.version) == PathKey(c, p) && Tracks(records, p, Some(e.version));
      assert e in log';
    }
  }

  /** Nothing new at the path but events of its own client: what is to come there is the same. */
  lemma ComingSame(c: Client, log: seq<Event>, log': seq<Event>, cursor: nat, e: Event, p: string)
    requires log <= log'
    requires forall i | |log| <= i < |log'| && KeyOf(log'[i].version) == PathKey(c, p) ::
               OwnEvent(c.device, c.root, log'[i])
    ensures Coming(c, log', cursor, e, p) == Coming(c, log, cursor, e, p)
  {
  }

  lemma StaysTuned(c: Client, log: seq<Event>, log': seq<Event>, cursor: nat, records: Records, records': Records,
                   p: string)
    requires log <= log' && LastAt(log', PathKey(c, p)) == LastAt(log, PathKey(c, p))
    requires forall i | |log| <= i < |log'| && KeyOf(log'[i].version) == PathKey(c, p) ::
               OwnEvent(c.device, c.root, log'[i])
    requires (p in records' <==> p in records) && (p in records ==> records'[p] == records[p])
    ensures Tuned(c, log, cursor, records, p) ==> Tuned(c, log', cursor, records', p)
    ensures Ahead(c, log', cursor, records', p) ==> Ahead(c, log, cursor, records, p)
  {
    hide LastAt, Coming;
    forall e ensures Coming(c, log', cursor, e, p) == Coming(c, log, cursor, e, p) {
      ComingSame(c, log, log', cursor, e, p);
    }
    if Faithful(c, log, records, p) {
      FaithfulStill(c, log, log', records, p);
      if p in records {
        var e :| e in log' && KeyOf(e.version) == PathKey(c, p) && Tracks(records, p, Some(e.version));
        assert Tracks(records', p, Some(e.version));
      }
    }
  }

  /** Another client's event puts the path off until it is passed; the record cannot name it yet. */
  lemma OthersTunedAt(c: Client, log: seq<Event>, log': seq<Event>, cursor: nat, records: Records, p: string)
    requires log <= log' && LogSane(log') && cursor <= |log| && Tuned(c, log, cursor, records, p)
    requires forall i | |log| <= i < |log'| && KeyOf(log'[i].version) == PathKey(c, p) ::
               !OwnEvent(c.device, c.root, log'[i])
    ensures Tuned(c, log', cursor, records, p)
    ensures Ahead(c, log', cursor, records, p) ==> Ahead(c, log, cursor, records, p)
  {
    hide LastAt;
    var key := PathKey(c, p);
    LastSince(log, log', key);
    FaithfulStill(c, log, log', records, p);
    if LastAt(log', key) == LastAt(log, key) && forall i | |log| <= i < |log'| :: KeyOf(log'[i].version) != key {
      StaysTuned(c, log, log', cursor, records, records, p);
    } else {
      var i :| |log| <= i < |log'| && KeyOf(log'[i].version) == key && LastAt(log', key) == Some(log'[i].version);
      assert log'[i].seqNo == i + 1 && log'[i] in log';
      assert Coming(c, log', cursor, log'[i], p);
      NewIsUnnamed(c, log, log', records, p, i);
    }
  }

  lemma NewIsUnnamed(c: Client, log: seq<Event>, log': seq<Event>, records: Records, p: string, i: nat)
    requires log <= log' && LogSane(log') && Faithful(c, log, records, p) && |log| <= i < |log'|
    ensures p in records ==> records[p].versionId != log'[i].version.versionId
  {
    if p in records {
      var e :| e in log && KeyOf(e.version) == PathKey(c, p) && Tracks(records, p, Some(e.version));
      var j :| 0 <= j < |log| && log[j] == e;
      assert log'[j] == e;
    }
  }

  lemma OthersAttuned(c: Client, s: Server, s': Server, cursor: nat, records: Records)
    requires Inv(s') && OnlyOthers(c, s, s') && Attuned(c, s.log, cursor, records)
    ensures Attuned(c, s'.log, cursor, records)
    ensures forall p :: Ahead(c, s'.log, cursor, records, p) ==> Ahead(c, s.log, cursor, records, p)
  {
    hide Inv, Tuned, Ahead, LogSane;
    ServerLogSane(s');
    forall p
      ensures Tuned(c, s'.log, cursor, records, p)
      ensures Ahead(c, s'.log, cursor, records, p) ==> Ahead(c, s.log, cursor, records, p)
    {
      OthersTunedAt(c, s.log, s'.log, cursor, records, p);
    }
  }

  // ---------------------------------------------------------------- the entry against the log

  function LastOf(c: Client, s: Server, p: string): Option<FileVersion> { LastAt(s.log, PathKey(c, p)) }

  /** The last event of a path without a version is a tombstone that was pruned, or there is none. */
  lemma PrunedLast(c: Client, s: Server, p: string)
    requires Inv(s) && !HasVersion(s.files, PathKey(c, p))
    ensures LastOf(c, s, p).Some? ==>
              LastOf(c, s, p).value.state.Deleted? && LastOf(c, s, p).value.fileId in s.versions
    ensures PathKey(c, p) in s.files ==> s.files[PathKey(c, p)].fileId !in s.versions
  {
    hide HistoriesOk, UniqueVersionIds, DistinctFileIds, WindowOk, ChunksOk, ContentOk, OpsOk, LastAt;
    var key := PathKey(c, p);
    LogTellsFiles(s, key);
    if LastOf(c, s, p).Some? {
      var i := LastIsMember(s.log, key);
      assert InHistory(s.versions, s.log[i].version);
    }
    if key in s.files { assert EntryOk(s.versions, key, s.files[key], s.nextId); }
  }

  /** A version is the last event of its path. */
  lemma CurrentIsLast(c: Client, s: Server, p: string)
    requires Inv(s) && HasVersion(s.files, PathKey(c, p))
    ensures var e := s.files[PathKey(c, p)];
            LastOf(c, s, p) == e.current && e.current.value.fileId == e.fileId && e.current.value.path == p
            && e.current.value.versionId.Issued? && (LiveDir(e) <==> e.current.value.state.Dir?)
  {
    hide UniqueVersionIds, DistinctFileIds, WindowOk, ChunksOk, ContentOk, OpsOk, LogOk, LastAt, IsClean;
    LogTellsFiles(s, PathKey(c, p));
    var e := s.files[PathKey(c, p)];
    assert EntryOk(s.versions, PathKey(c, p), e, s.nextId);
    assert HistoryOk(e.fileId, s.versions[e.fileId], s.nextId);
  }

  /** A faithful record names a file that has a history, at a canonical path. */
  lemma FaithfulNames(c: Client, s: Server, records: Records, p: string)
    requires Inv(s) && Faithful(c, s.log, records, p) && p in records
    ensures IsClean(p) && records[p].fileId in s.versions && records[p].fileId != NoId
  {
    hide UniqueVersionIds, DistinctFileIds, WindowOk, ChunksOk, ContentOk, OpsOk, FilesOk, ReplayOk, IsClean;
    var e :| e in s.log && KeyOf(e.version) == PathKey(c, p) && Tracks(records, p, Some(e.version));
    var i :| 0 <= i < |s.log| && s.log[i] == e;
    assert InHistory(s.versions, s.log[i].version);
    assert HistoryOk(e.version.fileId, s.versions[e.version.fileId], s.nextId);
  }

  /** Nothing was pruned that the client has yet to pass: tombstones are kept for ten days. */
  ghost predicate PrunesPassed(c: Client, s: Server, cursor: nat) {
    forall p :: !HasVersion(s.files, PathKey(c, p)) ==> !Outstanding(c, s.log, cursor, p)
  }

  /** Where the client's own event may come: nothing of the others' is to come. */
  lemma MayCommit(c: Client, s: Server, cursor: nat, records: Records, p: string)
    requires Inv(s) && PrunesPassed(c, s, cursor) && Tuned(c, s.log, cursor, records, p)
             && !Ahead(c, s.log, cursor, records, p)
    requires HasVersion(s.files, PathKey(c, p)) ==>
               p in records && records[p].versionId == s.files[PathKey(c, p)].current.value.versionId
    ensures !Outstanding(c, s.log, cursor, p) && Settles(records, p, LastOf(c, s, p))
  {
    hide Inv, LastAt, Coming, Settles;
    if HasVersion(s.files, PathKey(c, p)) {
      CurrentIsLast(c, s, p);
    } else {
      assert !Outstanding(c, s.log, cursor, p);
    }
  }

  /** A path whose last event is now the client's own, and whose record is in step with it. */
  lemma NowTuned(c: Client, log: seq<Event>, log': seq<Event>, cursor: nat, records': Records, p: string)
    requires log <= log' && !Outstanding(c, log, cursor, p)
    requires forall i | |log| <= i < |log'| && KeyOf(log'[i].version) == PathKey(c, p) ::
               OwnEvent(c.device, c.root, log'[i])
    requires Settles(records', p, LastAt(log', PathKey(c, p))) && Faithful(c, log', records', p)
    ensures Tuned(c, log', cursor, records', p) && !Ahead(c, log', cursor, records', p)
  {
    hide LastAt, Coming;
    forall e ensures Coming(c, log', cursor, e, p) == Coming(c, log, cursor, e, p) {
      ComingSame(c, log, log', cursor, e, p);
    }
  }

  lemma TracksIsFaithful(c: Client, log: seq<Event>, records: Records, p: string)
    requires Tracks(records, p, LastAt(log, PathKey(c, p))) && LastAt(log, PathKey(c, p)).Some?
    ensures Faithful(c, log, records, p)
  {
    hide LastAt;
    var i := LastIsMember(log, PathKey(c, p));
    assert log[i] in log;
  }

  // ---------------------------------------------------------------- the client's own requests

  lemma OwnAre(c: Client, s: Server, s': Server)
    requires OwnGrowth(s, s', OriginOf(c)) && TrimSpace(c.root) == c.root
    ensures s.log <= s'.log && forall i | |s.log| <= i < |s'.log| :: OwnEvent(c.device, c.root, s'.log[i])
  {
  }

  /** A directory made for a missing parent comes to a path without a version, and the client is not told. */
  lemma MadeSettles(c: Client, s: Server, s': Server, records: Records, p: string, d: string)
    requires Inv(s) && Inv(s') && DirMade(s, s', OriginOf(c), PathKey(c, p), d)
    ensures !HasVersion(s.files, PathKey(c, p))
    ensures LastOf(c, s', p).Some? && LastOf(c, s', p).value.state.Dir?
    ensures Settles(records, p, LastOf(c, s, p)) ==> Settles(records, p, LastOf(c, s', p))
  {
    hide Inv, LastAt, IsCopyName, UsedPaths, LiveDir;
    var key := PathKey(c, p);
    UnusedHasNone(s, key);
    PrunedLast(c, s, p);
    LiveIsVersion(s', key);
    CurrentIsLast(c, s', p);
    IdsInUse(s);
    hide HasVersion;
  }

  lemma MadeTuned(c: Client, s: Server, s': Server, cursor: nat, records: Records, records': Records, p: string,
                  d: string)
    requires Inv(s) && Inv(s') && OwnGrowth(s, s', OriginOf(c)) && TrimSpace(c.root) == c.root
    requires Tuned(c, s.log, cursor, records, p) && PrunesPassed(c, s, cursor)
    requires DirMade(s, s', OriginOf(c), PathKey(c, p), d)
    requires (p in records' <==> p in records) && (p in records ==> records'[p] == records[p])
    ensures Tuned(c, s'.log, cursor, records', p) && !Ahead(c, s'.log, cursor, records', p)
  {
    OwnAre(c, s, s');
    MadeSettles(c, s, s', records, p, d);
    hide Inv, LastAt, Coming, OwnGrowth, DirMade, HasVersion;
    assert !ToCome(c, s.log, cursor, p) by { assert !Outstanding(c, s.log, cursor, p); }
    FaithfulSame(c, s.log, s'.log, records, records', p);
    SettlesSame(records, records', p, LastOf(c, s', p));
    hide Settles;
    NowTuned(c, s.log, s'.log, cursor, records', p);
  }

  lemma SettlesSame(records: Records, records': Records, p: string, last: Option<FileVersion>)
    requires (p in records' <==> p in records) && (p in records ==> records'[p] == records[p])
    ensures Settles(records', p, last) == Settles(records, p, last)
  {
  }

  lemma FaithfulSame(c: Client, log: seq<Event>, log': seq<Event>, records: Records, records': Records, p: string)
    requires log <= log' && Faithful(c, log, records, p)
    requires (p in records' <==> p in records) && (p in records ==> records'[p] == records[p])
    ensures Faithful(c, log', records', p)
  {
    FaithfulStill(c, log, log', records, p);
    if p in records {
      var e :| e in log' && KeyOf(e.version) == PathKey(c, p) && Tracks(records, p, Some(e.version));
      assert Tracks(records', p, Some(e.version));
    }
  }

  lemma UnusedHasNone(s: Server, key: Key)
    requires Inv(s)
    ensures key in s.files ==> key.name in UsedPaths(s.files)
  {
    InvKeysMatch(s);
    if key in s.files { UsedIs(s, key); }
  }

  lemma LiveIsVersion(s: Server, key: Key)
    requires IsLiveDir(s.files, key)
    ensures HasVersion(s.files, key) && s.files[key].current.value.state.Dir?
  {
  }

  lemma IdsInUse(s: Server)
    requires Inv(s)
    ensures forall id | id in s.versions :: id.Issued? && id.n < s.nextId
  {
    hide UniqueVersionIds, FilesOk, DistinctFileIds, LogOk, WindowOk, ReplayOk, ChunksOk, ContentOk, OpsOk;
    forall id | id in s.versions ensures id.Issued? && id.n < s.nextId {
      assert HistoryOk(id, s.versions[id], s.nextId);
    }
  }

  /** The path an upload went to, its own or beside. */
  lemma LandedTuned(c: Client, s: Server, s': Server, cursor: nat, records': Records, p: string)
    requires Inv(s') && OwnGrowth(s, s', OriginOf(c)) && TrimSpace(c.root) == c.root
    requires !Outstanding(c, s.log, cursor, p) && HasVersion(s'.files, PathKey(c, p))
    requires p in records' && Tracks(records', p, s'.files[PathKey(c, p)].current)
    ensures Tuned(c, s'.log, cursor, records', p) && !Ahead(c, s'.log, cursor, records', p)
  {
    OwnAre(c, s, s');
    CurrentIsLast(c, s', p);
    hide Inv, LastAt, Coming, OwnGrowth;
    TracksIsFaithful(c, s'.log, records', p);
    NowTuned(c, s.log, s'.log, cursor, records', p);
  }

  /** The request's path, when the server answered with the directory that is there. */
  lemma UnchangedTuned(c: Client, s: Server, s': Server, cursor: nat, records: Records, records': Records, p: string)
    requires Inv(s) && OwnGrowth(s, s', OriginOf(c)) && TrimSpace(c.root) == c.root
    requires Tuned(c, s.log, cursor, records, p) && HasVersion(s.files, PathKey(c, p))
             && SameKey(s, s', PathKey(c, p))
    requires p in records' && Tracks(records', p, s.files[PathKey(c, p)].current)
    ensures Tuned(c, s'.log, cursor, records', p)
  {
    OwnAre(c, s, s');
    CurrentIsLast(c, s, p);
    hide Inv, LastAt, Coming, OwnGrowth;
    TracksIsFaithful(c, s'.log, records', p);
    forall e ensures Coming(c, s'.log, cursor, e, p) == Coming(c, s.log, cursor, e, p) {
      ComingSame(c, s.log, s'.log, cursor, e, p);
    }
  }

  /** The request's path, when the upload went beside it. */
  lemma DivertedTuned(c: Client, s: Server, s': Server, cursor: nat, records: Records, records': Records, m: Manifest)
    requires Inv(s) && OwnGrowth(s, s', OriginOf(c)) && TrimSpace(c.root) == c.root
    requires var p := m.path;
             Tuned(c, s.log, cursor, records, p) && SameKey(s, s', PathKey(c, p))
             && !NotDiverted(s, PathKey(c, p), m)
             && m.fileId == Known(records, p).fileId && m.base == Known(records, p).versionId
             && (m.fileId != NoId ==> PathKey(c, p) in s.files && s.files[PathKey(c, p)].fileId == m.fileId)
             && (p in records' ==> p in records && records'[p] == records[p])
    ensures Tuned(c, s'.log, cursor, records', m.path)
  {
    var p := m.path;
    OwnAre(c, s, s');
    CurrentIsLast(c, s, p);
    if p in records { FaithfulNames(c, s, records, p); }
    hide Inv, LastAt, Coming, OwnGrowth;
    forall e ensures Coming(c, s'.log, cursor, e, p) == Coming(c, s.log, cursor, e, p) {
      ComingSame(c, s.log, s'.log, cursor, e, p);
    }
    if p in records' { FaithfulSame(c, s.log, s'.log, records, records', p); }
  }

  /** A path the request was not for, and its answer not either. */
  lemma ElsewhereTuned(c: Client, s: Server, s': Server, cursor: nat, records: Records, records': Records,
                       dirs: seq<string>, p: string)
    requires Inv(s) && Inv(s') && OwnGrowth(s, s', OriginOf(c)) && TrimSpace(c.root) == c.root
    requires Tuned(c, s.log, cursor, records, p) && PrunesPassed(c, s, cursor)
    requires OnlyDirsMade(s, s', OriginOf(c), dirs, PathKey(c, p))
    requires (p in records' <==> p in records) && (p in records ==> records'[p] == records[p])
    ensures Tuned(c, s'.log, cursor, records', p)
    ensures Ahead(c, s'.log, cursor, records', p) ==> Ahead(c, s.log, cursor, records, p)
  {
    OwnAre(c, s, s');
    hide Inv, Tuned, Ahead, LastAt, OwnGrowth, DirMade, PrunesPassed, OwnEvent;
    if SameKey(s, s', PathKey(c, p)) {
      StaysTuned(c, s.log, s'.log, cursor, records, records', p);
    } else {
      var i :| 0 <= i < |dirs| && DirMade(s, s', OriginOf(c), PathKey(c, p), dirs[i]);
      MadeTuned(c, s, s', cursor, records, records', p, dirs[i]);
    }
  }

  /** What an answered upload did to the server. */
  ghost predicate SentOrPut(s: Server, s': Server, o: Origin, m: Manifest, r: CommitResponse) {
    if NotDiverted(s, Key(o.account, o.space, m.path), m) then Answered(s, s', o, m, r) else PutBeside(s, s', o, m, r)
  }

  /** What is recorded of an upload that went to its path. */
  lemma AnsweredRecords(c: Client, s: Server, s': Server, records: Records, opId: string, rel: string, sent: Scan,
                        r: CommitResponse, time: int)
    requires Inv(s') && Answered(s, s', OriginOf(c), Upload(c, records, opId, rel, sent).manifest, r)
             && r.version.Some?
    ensures var records' := Recorded(records, CommitMessage(Upload(c, records, opId, rel, sent)), r, time);
            HasVersion(s'.files, PathKey(c, rel))
            && records' == records[rel := StateFromVersion(s'.files[PathKey(c, rel)].current.value, time)]
  {
    CurrentIsLast(c, s', rel);
    hide Inv, LastAt, OnlyDirsMade, Landed, SameKey, LiveDir;
  }

  lemma OwnPathTuned(c: Client, s: Server, s': Server, cursor: nat, records: Records, records': Records, m: Manifest,
                     r: CommitResponse)
    requires Inv(s) && Inv(s') && OwnGrowth(s, s', OriginOf(c)) && TrimSpace(c.root) == c.root
    requires var rel := m.path;
             Tuned(c, s.log, cursor, records, rel) && PrunesPassed(c, s, cursor)
             && !Ahead(c, s.log, cursor, records, rel) && m.base == Known(records, rel).versionId
             && (m.state.File? || m.state.Dir?)
    requires NotDiverted(s, PathKey(c, m.path), m) && Answered(s, s', OriginOf(c), m, r)
    requires m.path in records' && HasVersion(s'.files, PathKey(c, m.path))
             && Tracks(records', m.path, s'.files[PathKey(c, m.path)].current)
    ensures Tuned(c, s'.log, cursor, records', m.path)
  {
    var rel := m.path;
    var at := PathKey(c, rel);
    if HasVersion(s.files, at) { CurrentIsLast(c, s, rel); }
    hide Inv, LastAt, Tuned, Ahead, OnlyDirsMade, OwnGrowth, PrunesPassed, Landed, Tracks;
    if m.state.Dir? && IsLiveDir(s.files, at) {
      SameEntry(s, s', at);
      UnchangedTuned(c, s, s', cursor, records, records', rel);
    } else {
      MayCommit(c, s, cursor, records, rel);
      LandedTuned(c, s, s', cursor, records', rel);
    }
  }

  lemma CopyTuned(c: Client, s: Server, s': Server, cursor: nat, records': Records, p: string, time: int)
    requires Inv(s) && Inv(s') && OwnGrowth(s, s', OriginOf(c)) && TrimSpace(c.root) == c.root
    requires PrunesPassed(c, s, cursor) && p !in UsedPaths(s.files) && HasVersion(s'.files, PathKey(c, p))
    requires p in records' && records'[p] == StateFromVersion(s'.files[PathKey(c, p)].current.value, time)
    ensures Tuned(c, s'.log, cursor, records', p) && !Ahead(c, s'.log, cursor, records', p)
  {
    UnusedHasNone(s, PathKey(c, p));
    hide Inv, LastAt, Outstanding, OwnGrowth, UsedPaths;
    LandedTuned(c, s, s', cursor, records', p);
  }

  lemma AnsweredAttuned(c: Client, s: Server, s': Server, cursor: nat, records: Records, opId: string, rel: string,
                        sent: Scan, r: CommitResponse, time: int)
    requires Inv(s) && Inv(s') && OwnGrowth(s, s', OriginOf(c)) && TrimSpace(c.root) == c.root
    requires Attuned(c, s.log, cursor, records) && PrunesPassed(c, s, cursor)
             && !Ahead(c, s.log, cursor, records, rel) && (sent.state.File? || sent.state.Dir?)
    requires var m := Upload(c, records, opId, rel, sent).manifest;
             r.version.Some? && NotDiverted(s, PathKey(c, rel), m) && Answered(s, s', OriginOf(c), m, r)
    ensures var records' := Recorded(records, CommitMessage(Upload(c, records, opId, rel, sent)), r, time);
            forall p ::
              Tuned(c, s'.log, cursor, records', p)
              && (Ahead(c, s'.log, cursor, records', p) ==> p == rel || Ahead(c, s.log, cursor, records, p))
  {
    var m := Upload(c, records, opId, rel, sent).manifest;
    var records' := Recorded(records, CommitMessage(Upload(c, records, opId, rel, sent)), r, time);
    AnsweredRecords(c, s, s', records, opId, rel, sent, r, time);
    CurrentIsLast(c, s', rel);
    hide Inv, LastAt, Tuned, Ahead, OwnGrowth, PrunesPassed, Recorded, Ancestors, OnlyDirsMade, Landed, NotDiverted,
         LiveDir, SameKey;
    OwnPathTuned(c, s, s', cursor, records, records', m, r);
    forall p
      ensures Tuned(c, s'.log, cursor, records', p)
      ensures Ahead(c, s'.log, cursor, records', p) ==> p == rel || Ahead(c, s.log, cursor, records, p)
    {
      if p != rel { ElsewhereTuned(c, s, s', cursor, records, records', Ancestors(rel), p); }
    }
  }

  lemma BesideAttuned(c: Client, s: Server, s': Server, cursor: nat, records: Records, opId: string, rel: string,
                      sent: Scan, r: CommitResponse, time: int)
    requires Inv(s) && Inv(s') && OwnGrowth(s, s', OriginOf(c)) && TrimSpace(c.root) == c.root
    requires Attuned(c, s.log, cursor, records) && PrunesPassed(c, s, cursor)
    requires var m := Upload(c, records, opId, rel, sent).manifest;
             r.version.Some? && !NotDiverted(s, PathKey(c, rel), m) && PutBeside(s, s', OriginOf(c), m, r)
    ensures var records' := Recorded(records, CommitMessage(Upload(c, records, opId, rel, sent)), r, time);
            forall p ::
              Tuned(c, s'.log, cursor, records', p)
              && (Ahead(c, s'.log, cursor, records', p) ==> p == rel || Ahead(c, s.log, cursor, records, p))
  {
    var m := Upload(c, records, opId, rel, sent).manifest;
    var records' := Recorded(records, CommitMessage(Upload(c, records, opId, rel, sent)), r, time);
    var q := r.conflictPath;
    BesideRecords(c, s, s', records, opId, rel, sent, r, time);
    hide Inv, LastAt, Tuned, Ahead, OwnGrowth, PrunesPassed, Recorded, Ancestors, OnlyDirsMade, Landed, NotDiverted,
         IsCopyName, UsedPaths, SameKey;
    CopyTuned(c, s, s', cursor, records', q, time);
    DivertedTuned(c, s, s', cursor, records, records', m);
    forall p
      ensures Tuned(c, s'.log, cursor, records', p)
      ensures Ahead(c, s'.log, cursor, records', p) ==> p == rel || Ahead(c, s.log, cursor, records, p)
    {
      if p != rel && p != q { ElsewhereTuned(c, s, s', cursor, records, records', Ancestors(rel), p); }
    }
  }

  /** An answered upload, whether it went to its path or beside, leaves the records attuned; only its own path may then
      be ahead. */
  lemma UploadAttuned(c: Client, s: Server, s': Server, cursor: nat, records: Records, opId: string, rel: string,
                      sent: Scan, r: CommitResponse, time: int)
    requires Inv(s) && Inv(s') && OwnGrowth(s, s', OriginOf(c)) && TrimSpace(c.root) == c.root
    requires Attuned(c, s.log, cursor, records) && PrunesPassed(c, s, cursor)
             && !Ahead(c, s.log, cursor, records, rel) && (sent.state.File? || sent.state.Dir?)
    requires r.version.Some?
             && SentOrPut(s, s', OriginOf(c), Upload(c, records, opId, rel, sent).manifest, r)
    ensures var records' := Recorded(records, CommitMessage(Upload(c, records, opId, rel, sent)), r, time);
            Attuned(c, s'.log, cursor, records')
            && forall p :: Ahead(c, s'.log, cursor, records', p) ==> p == rel || Ahead(c, s.log, cursor, records, p)
  {
    hide Inv, Tuned, Ahead, PrunesPassed, Recorded, PutBeside, Answered, NotDiverted, OwnEvent;
    OwnAre(c, s, s');
    hide OwnGrowth, LogSane;
    if NotDiverted(s, PathKey(c, rel), Upload(c, records, opId, rel, sent).manifest) {
      AnsweredAttuned(c, s, s', cursor, records, opId, rel, sent, r, time);
    } else {
      BesideAttuned(c, s, s', cursor, records, opId, rel, sent, r, time);
    }
  }

  /** What is recorded of an upload that went beside. */
  lemma BesideRecords(c: Client, s: Server, s': Server, records: Records, opId: string, rel: string, sent: Scan,
                      r: CommitResponse, time: int)
    requires Inv(s') && PutBeside(s, s', OriginOf(c), Upload(c, records, opId, rel, sent).manifest, r)
             && r.version.Some?
    ensures var records' := Recorded(records, CommitMessage(Upload(c, records, opId, rel, sent)), r, time);
            var q := r.conflictPath;
            HasVersion(s'.files, PathKey(c, q)) && q != rel
            && q in records' && records'[q] == StateFromVersion(s'.files[PathKey(c, q)].current.value, time)
            && (rel in records' ==> rel in records && records'[rel] == records[rel])
            && forall p | p != rel && p != q ::
                 (p in records' <==> p in records) && (p in records ==> records'[p] == records[p])
  {
    hide Inv, LastAt, OnlyDirsMade, IsCopyName, UsedPaths;
  }

  // ---------------------------------------------------------------- refused requests

  /** The last event of a key is as it was, or a directory's that was made for a missing parent. */
  ghost predicate LastOrMade(s: Server, s': Server, o: Origin, key: Key) {
    LastAt(s'.log, key) == LastAt(s.log, key) || exists d :: DirMade(s, s', o, key, d)
  }

  lemma LockedRefused(s: Server, account: string, space: string, req: CommitRequest, plan: Plan, clock: Clock, key: Key)
    requires Inv(s) && IsClean(plan.path) && CommitLocked(s, account, space, req, plan, clock).1.Err?
    ensures LastOrMade(s, CommitLocked(s, account, space, req, plan, clock).0,
                       RequestOrigin(account, space, req.device, req.root), key)
  {
    hide Inv, EnsureParents, CommitEntry, Ancestors, LastAt, IsClean, SameKey, DirMade;
    var o := RequestOrigin(account, space, req.device, req.root);
    var dirs := Ancestors(plan.path);
    var s1 := AfterParents(s, account, space, req, plan, clock);
    AncestorsAllClean(plan.path);
    ParentsMade(s, o, dirs, req.manifest.modTime, clock, key);
    var s' := CommitLocked(s, account, space, req, plan, clock).0;
    RefusedKeeps(s1, o, req.manifest, plan.path, plan.state, clock, key);
    if LastAt(s'.log, key) != LastAt(s.log, key) {
      LastDiffers(s, s1, key);
      var i :| 0 <= i < |dirs| && DirMade(s, s1, o, key, dirs[i]);
      MadeStill(s, s, s1, s', o, key, dirs[i]);
    }
  }

  /** A refused commit may have made parents, and changes no other last event. */
  lemma RefusedMakesDirs(s: Server, account: string, space: string, req: CommitRequest, clock: Clock, key: Key)
    requires Inv(s) && Commit(s, account, space, req, clock).1.Err?
    ensures LastOrMade(s, Commit(s, account, space, req, clock).0,
                       RequestOrigin(account, space, req.device, req.root), key)
  {
    hide Inv, CheckCommit, CommitLocked, LastAt, IsClean, DirMade, Ready;
    var checked := CheckCommit(s, account, space, req);
    if checked.Ok? {
      var s0 := GrantEmpty(s, account, req.manifest, checked.value);
      CheckCommitSound(s, account, space, req);
      GrantEmptyInv(s, account, req.manifest, checked.value);
      ReadyClean(s, account, req.manifest, checked.value);
      LockedRefused(s0, account, space, req, checked.value, clock, key);
      var s', o := Commit(s, account, space, req, clock).0, RequestOrigin(account, space, req.device, req.root);
      if LastAt(s'.log, key) != LastAt(s.log, key) {
        var d :| DirMade(s0, s', o, key, d);
        MadeStill(s, s0, s', s', o, key, d);
      }
    }
  }

  lemma ReadyClean(s: Server, account: string, m: Manifest, plan: Plan)
    requires Ready(s, account, m, plan)
    ensures IsClean(plan.path)
  {
  }

  lemma LastDiffers(s: Server, s': Server, key: Key)
    ensures SameKey(s, s', key) ==> LastAt(s'.log, key) == LastAt(s.log, key)
  {
  }

  lemma RefusedKeeps(s: Server, o: Origin, m: Manifest, path: string, state: EntryState, clock: Clock, key: Key)
    requires CommitEntry(s, o, m, path, state, clock).1.Err?
    ensures var s' := CommitEntry(s, o, m, path, state, clock).0;
            s'.log == s.log && (key in s.files ==> key in s'.files && s'.files[key] == s.files[key])
  {
    hide OutcomeOf, Land, CopyKey;
  }

  lemma MadeStill(s: Server, s0: Server, s1: Server, s': Server, o: Origin, key: Key, d: string)
    requires s0.files == s.files && s0.log == s.log && s0.nextId == s.nextId && s'.log == s1.log
    requires DirMade(s0, s1, o, key, d) && key in s1.files ==> key in s'.files && s'.files[key] == s1.files[key]
    requires DirMade(s0, s1, o, key, d)
    ensures DirMade(s, s', o, key, d)
  {
    hide LastAt, IsCopyName, UsedPaths, LiveDir;
  }

  lemma RefusedAttuned(c: Client, s: Server, cursor: nat, records: Records, req: CommitRequest, clock: Clock)
    requires Inv(s) && TrimSpace(c.root) == c.root && req.device == c.device && req.root == c.root
    requires Attuned(c, s.log, cursor, records) && PrunesPassed(c, s, cursor)
    requires Commit(s, c.account, c.space, req, clock).1.Err?
    ensures var s' := Commit(s, c.account, c.space, req, clock).0;
            Inv(s') && Attuned(c, s'.log, cursor, records)
  {
    CommitInv(s, c.account, c.space, req, clock);
    CommitOwn(s, c.account, c.space, req, clock);
    hide Inv, Commit, Tuned, LastAt, OwnGrowth, DirMade, PrunesPassed, OwnEvent;
    var s' := Commit(s, c.account, c.space, req, clock).0;
    OwnAre(c, s, s');
    forall p ensures Tuned(c, s'.log, cursor, records, p) {
      RefusedMakesDirs(s, c.account, c.space, req, clock, PathKey(c, p));
      if LastAt(s'.log, PathKey(c, p)) == LastAt(s.log, PathKey(c, p)) {
        StaysTuned(c, s.log, s'.log, cursor, records, records, p);
      } else {
        var d :| DirMade(s, s', OriginOf(c), PathKey(c, p), d);
        MadeTuned(c, s, s', cursor, records, records, p, d);
      }
    }
  }

  // ---------------------------------------------------------------- deletions

  /** An answered deletion of a file that has a history: a conflict, or it is based on the current version. */
  lemma DeleteEither(s: Server, account: string, space: string, req: DeleteRequest, clock: Clock)
    requires Inv(s) && IsClean(req.path) && req.fileId != NoId && req.fileId in s.versions
             && Key(account, space, req.opId) !in s.ops
    requires Delete(s, account, space, req, clock).1.Ok?
    ensures var (s', r) := Delete(s, account, space, req, clock);
            var at := Key(account, space, req.path);
            HasVersion(s.files, at) && s.files[at].fileId == req.fileId
            && (req.base != s.files[at].current.value.versionId ==> s'.log == s.log && r.value.status.StatusConflict?)
  {
    hide HistoriesOk, UniqueVersionIds, DistinctFileIds, LogOk, WindowOk, ReplayOk, ChunksOk, ContentOk, OpsOk, IsClean,
         CleanRel, Install, Tombstone, SpaceActive;
    CleanRelFixpoint(req.path);
    var at := Key(account, space, req.path);
    if at in s.files { assert EntryOk(s.versions, at, s.files[at], s.nextId); }
  }

  /** What a record says of the current version, when it does not run ahead. */
  lemma RecordedThere(c: Client, s: Server, cursor: nat, records: Records, p: string)
    requires Inv(s) && Tuned(c, s.log, cursor, records, p) && !Ahead(c, s.log, cursor, records, p)
    requires p in records && (records[p].state.File? || records[p].state.Dir?) && HasVersion(s.files, PathKey(c, p))
             && records[p].versionId == s.files[PathKey(c, p)].current.value.versionId
    ensures !Outstanding(c, s.log, cursor, p) && !s.files[PathKey(c, p)].current.value.state.Deleted?
  {
    CurrentIsLast(c, s, p);
    hide Inv, LastAt, Coming;
  }

  /** An answered deletion leaves the records attuned, and none of them ahead that was not. */
  lemma RemovalAttuned(c: Client, s: Server, cursor: nat, records: Records, rel: string, opId: string, clock: Clock,
                       time: int)
    requires Inv(s) && TrimSpace(c.root) == c.root && Attuned(c, s.log, cursor, records)
             && !Ahead(c, s.log, cursor, records, rel)
    requires rel in records && (records[rel].state.File? || records[rel].state.Dir?)
             && Key(c.account, c.space, opId) !in s.ops
    requires Delete(s, c.account, c.space, Removal(c, records, opId, rel), clock).1.Ok?
    ensures var req := Removal(c, records, opId, rel);
            var (s', r) := Delete(s, c.account, c.space, req, clock);
            var records' := Recorded(records, DeleteMessage(req), r.value, time);
            Attuned(c, s'.log, cursor, records')
            && forall p :: Ahead(c, s'.log, cursor, records', p) ==> Ahead(c, s.log, cursor, records, p)
  {
    var req := Removal(c, records, opId, rel);
    var (s', r) := Delete(s, c.account, c.space, req, clock);
    var records' := Recorded(records, DeleteMessage(req), r.value, time);
    assert Tuned(c, s.log, cursor, records, rel);
    FaithfulNames(c, s, records, rel);
    hide Inv, Delete, Tuned, Ahead, IsClean;
    DeleteEither(s, c.account, c.space, req, clock);
    if req.base == s.files[PathKey(c, rel)].current.value.versionId {
      RecordedThere(c, s, cursor, records, rel);
      DeleteBuries(s, c.account, c.space, req, clock);
      DeleteOwn(s, c.account, c.space, req, clock);
      StoreTrash.DeleteInv(s, c.account, c.space, req, clock);
      BuriedAttuned(c, s, s', cursor, records, opId, rel, r.value, time);
    }
  }

  lemma BuriedAttuned(c: Client, s: Server, s': Server, cursor: nat, records: Records, opId: string, rel: string,
                      r: CommitResponse, time: int)
    requires Inv(s') && OwnGrowth(s, s', OriginOf(c)) && TrimSpace(c.root) == c.root
    requires Attuned(c, s.log, cursor, records) && !Outstanding(c, s.log, cursor, rel)
    requires rel in records && Buried(s, s', PathKey(c, rel), r)
             && records[rel].fileId == s.files[PathKey(c, rel)].fileId
    ensures var records' := Recorded(records, DeleteMessage(Removal(c, records, opId, rel)), r, time);
            Attuned(c, s'.log, cursor, records')
            && forall p :: Ahead(c, s'.log, cursor, records', p) ==> Ahead(c, s.log, cursor, records, p)
  {
    var records' := Recorded(records, DeleteMessage(Removal(c, records, opId, rel)), r, time);
    OwnAre(c, s, s');
    assert Tracks(records', rel, r.version) && HasVersion(s'.files, PathKey(c, rel));
    hide Inv, LastAt, Tuned, Ahead, OwnGrowth, Outstanding, Tracks;
    LandedTuned(c, s, s', cursor, records', rel);
    forall p
      ensures Tuned(c, s'.log, cursor, records', p)
      ensures Ahead(c, s'.log, cursor, records', p) ==> Ahead(c, s.log, cursor, records, p)
    {
      if p != rel {
        assert SameKey(s, s', PathKey(c, p));
        StaysTuned(c, s.log, s'.log, cursor, records, records', p);
      }
    }
  }

  // ---------------------------------------------------------------- a file that is not at its path any more

  predicate Carried(s: Server, key: Key, fileId: Id) { key in s.files && s.files[key].fileId == fileId }

  /** An upload that names a file which is not at its path is refused. */
  lemma OtherIdRefused(c: Client, s: Server, req: CommitRequest, clock: Clock)
    requires Inv(s) && Key(c.account, c.space, req.opId) !in s.ops && IsClean(req.manifest.path)
             && (req.manifest.state.File? || req.manifest.state.Dir?)
    requires var m := req.manifest;
             m.fileId != NoId && (m.fileId in s.versions || PathKey(c, m.path) in s.files)
             && !Carried(s, PathKey(c, m.path), m.fileId)
    ensures Commit(s, c.account, c.space, req, clock).1.Err?
  {
    IdsInUse(s);
    hide Inv, Commit, IsClean, NotDiverted, OnlyDirsMade, SameKey, Landed, IsCopyName, UsedPaths;
    if Commit(s, c.account, c.space, req, clock).1.Ok? {
      if NotDiverted(s, PathKey(c, req.manifest.path), req.manifest) {
        CommitAnswered(s, c.account, c.space, req, clock);
      } else {
        CommitPutBeside(s, c.account, c.space, req, clock);
      }
    }
  }
}
