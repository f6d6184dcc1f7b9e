/** The bounded event window against the whole log, and the log against the table of files. */
module EventWindow {
  import opened Model
  import opened StoreSpec
  import opened StoreInvariant

  lemma {:induction false} FilterConcat(a: seq<Event>, b: seq<Event>, account: string, space: string, after: nat)
    ensures FilterEvents(a + b, account, space, after)
         == FilterEvents(a, account, space, after) + FilterEvents(b, account, space, after)
    decreases |b|
  {
    if b == [] {
      assert a + b == a;
    } else {
      var front := b[..|b| - 1];
      FilterConcat(a, front, account, space, after);
      assert (a + b)[..|a + b| - 1] == a + front;
    }
  }

  predicate Wanted(e: Event, account: string, space: string, after: nat) {
    e.version.account == account && e.version.space == space && e.seqNo > after
  }

  lemma {:induction false} FilterNone(events: seq<Event>, account: string, space: string, after: nat)
    ensures FilterEvents(events, account, space, after) == []
       <==> forall i | 0 <= i < |events| :: !Wanted(events[i], account, space, after)
  {
    if events != [] {
      var n := |events| - 1;
      FilterNone(events[..n], account, space, after);
      assert forall i | 0 <= i < n :: events[..n][i] == events[i];
      assert Wanted(events[n], account, space, after) ==> |FilterEvents(events, account, space, after)| > 0;
    }
  }

  /** What `EventsAfter` answers is always a suffix of what the whole log would answer, and it is all of it
      exactly when no wanted event has left the window. */
  lemma WindowAnswers(s: Server, account: string, space: string, after: nat)
    requires WindowOk(s.log, s.events, s.lastSeq)
    ensures var trimmed := |s.log| - |s.events|;
            var all := FilterEvents(s.log, account, space, after);
            var kept := EventsAfter(s, account, space, after);
            all == FilterEvents(s.log[..trimmed], account, space, after) + kept
            && (all == kept <==> forall i | 0 <= i < trimmed :: !Wanted(s.log[i], account, space, after))
  {
    var trimmed := |s.log| - |s.events|;
    assert s.log == s.log[..trimmed] + s.events;
    FilterConcat(s.log[..trimmed], s.events, account, space, after);
    FilterNone(s.log[..trimmed], account, space, after);
    assert forall i | 0 <= i < trimmed :: s.log[..trimmed][i] == s.log[i];
  }

  /** A cursor that has not fallen behind the window misses nothing. */
  lemma WindowRefinesLog(s: Server, account: string, space: string, after: nat)
    requires WindowOk(s.log, s.events, s.lastSeq)
    requires after >= s.lastSeq - |s.events|
    ensures EventsAfter(s, account, space, after) == FilterEvents(s.log, account, space, after)
  {
    WindowAnswers(s, account, space, after);
  }

  // ---------------------------------------------------------------- replay

  /** The log tells the table: an entry's version is its path's last event, and every path without a version ends in
      a tombstone, whose entry was pruned, or has no event. */
  lemma LogTellsFiles(s: Server, key: Key)
    requires ReplayOk(s.log, s.files)
    ensures if key in s.files && s.files[key].current.Some? then LastAt(s.log, key) == s.files[key].current
            else LastAt(s.log, key).None? || LastAt(s.log, key).value.state.Deleted?
  {
    ReplayIsLast(s.log, key);
    assert key in LiveFiles(s.files) <==> key in s.files && Live(s.files[key]);
  }
}
