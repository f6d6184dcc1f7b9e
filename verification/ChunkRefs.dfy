/** Conservation of chunk references: the counter of a digest, together with its uses by restored versions,
    is its number of uses by all file versions. */
module ChunkRefs {
  import opened Model
  import opened StoreSpec
  import opened StoreInvariant
  import opened StoreCommit
  import Paths
  import StoreTrash

  function CountIn(chunks: seq<ChunkRef>, hash: string): nat {
    if chunks == [] then 0
    else (if chunks[0].hash == hash then 1 else 0) + CountIn(chunks[1..], hash)
  }

  /** Which versions are counted: all, or those with one of the given ids. */
  datatype Selection = Everything | Only(ids: set<Id>)

  predicate Selected(sel: Selection, v: FileVersion) {
    v.state.File? && (sel.Everything? || v.versionId in sel.ids)
  }

  function Uses(v: FileVersion, hash: string, sel: Selection): nat {
    if Selected(sel, v) then CountIn(v.chunks, hash) else 0
  }

  function HistoryUses(h: seq<FileVersion>, hash: string, sel: Selection): nat {
    if h == [] then 0
    else HistoryUses(h[..|h| - 1], hash, sel) + Uses(h[|h| - 1], hash, sel)
  }

  /** The uses of a digest over all histories. */
  ghost function TotalUses(versions: map<Id, seq<FileVersion>>, hash: string, sel: Selection): nat
    decreases |versions|
  {
    if versions == map[] then 0
    else
      var id :| id in versions;
      HistoryUses(versions[id], hash, sel) + TotalUses(versions - {id}, hash, sel)
  }

  function RefCount(refs: map<string, nat>, hash: string): nat { if hash in refs then refs[hash] else 0 }

  /** Conservation. */
  ghost predicate Conserved(s: Server) {
    forall h :: RefCount(s.refs, h) + TotalUses(s.versions, h, Only(s.restored)) == TotalUses(s.versions, h, Everything)
  }

  /** The sum over a map may be taken in any order. */
  lemma {:induction false} TotalSplit(versions: map<Id, seq<FileVersion>>, hash: string, sel: Selection, id: Id)
    requires id in versions
    ensures TotalUses(versions, hash, sel)
         == HistoryUses(versions[id], hash, sel) + TotalUses(versions - {id}, hash, sel)
    decreases |versions|
  {
    var first :| first in versions
      && TotalUses(versions, hash, sel)
         == HistoryUses(versions[first], hash, sel) + TotalUses(versions - {first}, hash, sel);
    if first != id {
      TotalSplit(versions - {first}, hash, sel, id);
      TotalSplit(versions - {id}, hash, sel, first);
      assert versions - {first} - {id} == versions - {id} - {first};
    }
  }

  /** Appending a version to one history adds that version's uses. */
  lemma SameWithout(versions: map<Id, seq<FileVersion>>, id: Id, h: seq<FileVersion>)
    ensures versions[id := h] - {id} == versions - {id}
  {
  }

  lemma TotalAppend(versions: map<Id, seq<FileVersion>>, hash: string, sel: Selection, v: FileVersion)
    ensures TotalUses(versions[v.fileId := History(versions, v.fileId) + [v]], hash, sel)
         == TotalUses(versions, hash, sel) + Uses(v, hash, sel)
  {
    hide TotalUses;
    var id := v.fileId;
    var h := History(versions, id);
    var versions' := versions[id := h + [v]];
    TotalSplit(versions', hash, sel, id);
    assert (h + [v])[..|h|] == h;
    SameWithout(versions, id, h + [v]);
    if id in versions {
      TotalSplit(versions, hash, sel, id);
    } else {
      assert versions - {id} == versions;
    }
  }

  /** Selections that agree on every stored version give the same sum. */
  lemma {:induction false} TotalAgrees(versions: map<Id, seq<FileVersion>>, hash: string, a: Selection, b: Selection)
    requires forall id, i | id in versions && 0 <= i < |versions[id]| ::
               Selected(a, versions[id][i]) == Selected(b, versions[id][i])
    ensures TotalUses(versions, hash, a) == TotalUses(versions, hash, b)
    decreases |versions|
  {
    if versions != map[] {
      var id :| id in versions
        && TotalUses(versions, hash, a) == HistoryUses(versions[id], hash, a) + TotalUses(versions - {id}, hash, a);
      TotalSplit(versions, hash, b, id);
      HistoryAgrees(versions[id], hash, a, b);
      TotalAgrees(versions - {id}, hash, a, b);
    }
  }

  lemma {:induction false} HistoryAgrees(h: seq<FileVersion>, hash: string, a: Selection, b: Selection)
    requires forall i | 0 <= i < |h| :: Selected(a, h[i]) == Selected(b, h[i])
    ensures HistoryUses(h, hash, a) == HistoryUses(h, hash, b)
  {
    if h != [] { HistoryAgrees(h[..|h| - 1], hash, a, b); }
  }

  lemma {:induction false} AddRefsCounts(refs: map<string, nat>, chunks: seq<ChunkRef>, hash: string)
    ensures RefCount(AddRefs(refs, chunks), hash) == RefCount(refs, hash) + CountIn(chunks, hash)
    decreases |chunks|
  {
    if chunks != [] {
      var h := chunks[0].hash;
      AddRefsCounts(refs[h := (if h in refs then refs[h] else 0) + 1], chunks[1..], hash);
    }
  }

  // ---------------------------------------------------------------- preservation

  /** The id of the next version was never used for a restored one. */
  lemma NextNotRestored(s: Server)
    requires RestoredOk(s.restored, s.nextId)
    ensures Issued(s.nextId) !in s.restored
  {
  }

  /** Committing a version: the new uses are counted once on each side. */
  lemma LandConserves(s: Server, o: Origin, m: Manifest, key: Key, state: EntryState, now: int)
    requires key in s.files && Conserved(s) && RestoredOk(s.restored, s.nextId)
    ensures Conserved(Land(s, o, m, key, state, now))
  {
    hide TotalUses, AddRefs, CountIn, HistoryUses;
    var v := CommittedVersion(o, m, key, s.files[key].fileId, Issued(s.nextId), state, now);
    var s' := Land(s, o, m, key, state, now);
    NextNotRestored(s);
    forall h
      ensures RefCount(s'.refs, h) + TotalUses(s'.versions, h, Only(s'.restored))
              == TotalUses(s'.versions, h, Everything)
    {
      TotalAppend(s.versions, h, Everything, v);
      TotalAppend(s.versions, h, Only(s.restored), v);
      AddRefsCounts(s.refs, v.chunks, h);
    }
  }

  /** A tombstone uses nothing. */
  lemma TombstoneConserves(s: Server, key: Key, v: FileVersion)
    requires key in s.files && v.state.Deleted? && Conserved(s)
    ensures Conserved(Install(s, key, v))
  {
    hide TotalUses, CountIn, HistoryUses;
    var s' := Install(s, key, v);
    forall h
      ensures RefCount(s'.refs, h) + TotalUses(s'.versions, h, Only(s'.restored))
              == TotalUses(s'.versions, h, Everything)
    {
      TotalAppend(s.versions, h, Everything, v);
      TotalAppend(s.versions, h, Only(s.restored), v);
    }
  }

  /** A restored version is not counted, and is the restored versions' new member. */
  lemma RestoredConserves(s: Server, key: Key, v: FileVersion)
    requires Inv(s) && Conserved(s)
    requires key in s.files && v.state.File? && v.versionId == Issued(s.nextId)
    ensures Conserved(Install(s, key, v).(restored := s.restored + {v.versionId}))
  {
    hide TotalUses, CountIn, HistoryUses, Inv;
    var more := s.restored + {v.versionId};
    var s' := Install(s, key, v).(restored := more);
    OldVersionsUnaffected(s, v.versionId);
    forall h
      ensures RefCount(s'.refs, h) + TotalUses(s'.versions, h, Only(more)) == TotalUses(s'.versions, h, Everything)
    {
      TotalAppend(s.versions, h, Everything, v);
      TotalAppend(s.versions, h, Only(more), v);
      TotalAgrees(s.versions, h, Only(s.restored), Only(more));
    }
  }

  lemma OldVersionsUnaffected(s: Server, id: Id)
    requires Inv(s) && id == Issued(s.nextId)
    ensures forall f, i | f in s.versions && 0 <= i < |s.versions[f]| ::
              Selected(Only(s.restored), s.versions[f][i]) == Selected(Only(s.restored + {id}), s.versions[f][i])
  {
  }

  ghost predicate SameCounts(s: Server, s': Server) {
    s'.refs == s.refs && s'.versions == s.versions && s'.restored == s.restored
  }

  lemma SameCountsConserves(s: Server, s': Server)
    requires Conserved(s) && SameCounts(s, s')
    ensures Conserved(s')
  {
  }

  lemma CommitExistingConserves(s: Server, o: Origin, m: Manifest, key: Key, state: EntryState, clock: Clock)
    requires key in s.files && Conserved(s) && RestoredOk(s.restored, s.nextId)
    ensures Conserved(CommitExisting(s, o, m, key, state, clock).0)
  {
    hide OutcomeOf, CopyKey, Land, Conserved;
    match OutcomeOf(s.files[key], m, state)
    case Refused =>
    case Unchanged =>
    case Diverted =>
      var copy := CopyKey(s, o, key.name, clock);
      SameCountsConserves(s, NewEntry(s, copy));
      LandConserves(NewEntry(s, copy), o, m, copy, state, clock.now);
    case Appended =>
      LandConserves(s, o, m, key, state, clock.now);
  }

  lemma CommitEntryConserves(s: Server, o: Origin, m: Manifest, path: string, state: EntryState, clock: Clock)
    requires Conserved(s) && RestoredOk(s.restored, s.nextId)
    ensures Conserved(CommitEntry(s, o, m, path, state, clock).0)
  {
    hide CommitExisting, Conserved;
    var key := Key(o.account, o.space, path);
    SameCountsConserves(s, EnsureEntry(s, key));
    CommitExistingConserves(EnsureEntry(s, key), o, m, key, state, clock);
  }

  lemma {:induction false} EnsureParentsConserves(s: Server, o: Origin, dirs: seq<string>, modTime: int, clock: Clock)
    requires Inv(s) && Conserved(s) && AllClean(dirs)
    ensures Conserved(EnsureParents(s, o, dirs, modTime, clock))
    decreases |dirs|
  {
    hide CommitEntry, Conserved, Inv, Paths.IsClean;
    if dirs != [] {
      assert Paths.IsClean(dirs[0]) && AllClean(dirs[1..]) by {
        assert forall i | 0 <= i < |dirs[1..]| :: dirs[1..][i] == dirs[i + 1];
      }
      if IsLiveDir(s.files, Key(o.account, o.space, dirs[0])) {
        EnsureParentsConserves(s, o, dirs[1..], modTime, clock);
      } else {
        var m := DirManifest(dirs[0], modTime);
        InvRestored(s);
        CommitEntryConserves(s, o, m, dirs[0], Dir, clock);
        CommitEntryInv(s, o, m, dirs[0], Dir, clock);
        EnsureParentsConserves(CommitEntry(s, o, m, dirs[0], Dir, clock).0, o, dirs[1..], modTime, clock);
      }
    }
  }

  lemma InvRestored(s: Server)
    requires Inv(s)
    ensures RestoredOk(s.restored, s.nextId)
  {
  }

  lemma CommitLockedConserves(s: Server, account: string, space: string, req: CommitRequest, plan: Plan, clock: Clock)
    requires Inv(s) && Conserved(s) && Ready(s, account, req.manifest, plan)
    ensures Conserved(CommitLocked(s, account, space, req, plan, clock).0)
  {
    hide EnsureParents, CommitEntry, Conserved, Inv, Paths.Ancestors, Paths.IsClean;
    var o := RequestOrigin(account, space, req.device, req.root);
    var s1 := EnsureParents(s, o, Paths.Ancestors(plan.path), req.manifest.modTime, clock);
    AncestorsAllClean(plan.path);
    EnsureParentsInv(s, o, Paths.Ancestors(plan.path), req.manifest.modTime, clock);
    EnsureParentsConserves(s, o, Paths.Ancestors(plan.path), req.manifest.modTime, clock);
    InvRestored(s1);
    CommitEntryConserves(s1, o, req.manifest, plan.path, plan.state, clock);
    var (s2, r) := CommitEntry(s1, o, req.manifest, plan.path, plan.state, clock);
    if r.Ok? {
      SameCountsConserves(s2, s2.(ops := s2.ops[Key(account, space, req.opId) := r.value]));
    }
  }

  lemma TombstoneIsDeleted(o: Origin, key: Key, e: FileEntry, base: Id, versionId: Id, now: int)
    ensures Tombstone(o, key, e, base, versionId, now).state.Deleted?
  {
  }

  lemma DeleteConserves(s: Server, account: string, space: string, req: DeleteRequest, clock: Clock)
    requires Conserved(s)
    ensures Conserved(Delete(s, account, space, req, clock).0)
  {
    hide Conserved, Install, SpaceActive, Paths.CleanRel, Tombstone;
    var r, op := Delete(s, account, space, req, clock).1, Key(account, space, req.opId);
    if Paths.CleanRel(req.path).Ok? && r.Ok? && op !in s.ops {
      SameCountsConserves(s, s.(ops := s.ops[op := r.value]));
      var key := Key(account, space, Paths.CleanRel(req.path).value);
      if key in s.files {
        var o := RequestOrigin(account, space, req.device, req.root);
        var v := Tombstone(o, key, s.files[key], req.base, Issued(s.nextId), clock.now);
        TombstoneIsDeleted(o, key, s.files[key], req.base, Issued(s.nextId), clock.now);
        TombstoneConserves(s, key, v);
        var s1 := Install(s, key, v);
        SameCountsConserves(s1, s1.(ops := s1.ops[op := r.value]));
      }
    }
  }

  lemma RestoreConserves(s: Server, account: string, req: RestoreRequest, actor: string, clock: Clock)
    requires Inv(s) && Conserved(s)
    ensures Conserved(Restore(s, account, req, actor, clock).0)
  {
    hide Conserved, Inv, Install, SpaceActive, Paths.CleanRel, RestoreSource, RestoreDevice, RestoreSpace;
    var s1 := Prune(s, clock.now);
    StoreTrash.PruneInv(s, clock.now);
    SameCountsConserves(s, s1);
    if Paths.CleanRel(req.path).Ok? {
      var key := Key(account, RestoreSpace(req), Paths.CleanRel(req.path).value);
      if key in s1.files && InTrash(s1.files[key]) {
        var e := s1.files[key];
        match RestoreSource(History(s1.versions, req.fileId), e.current.value)
        case None =>
        case Some(source) =>
          RestoredConserves(s1, key, RestoredVersion(account, key.space, key, e, source, e.current.value.versionId,
                                                     Issued(s1.nextId), RestoreDevice(actor), clock.now));
      }
    }
  }
}
