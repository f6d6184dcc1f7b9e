/** The client's records of what it last synced (internal/client/state.go), as values, and how events and
    versions enter them (internal/client/sync.go). */
module ClientRecords {
  import opened Model
  import opened Paths

  const NO_RECORD := LocalFileState("", NoId, NoId, Unset, Unset, 0, "", [], 0, 0)

  /** `State.Get`: the record at a path, or the zero record. */
  function Known(records: map<string, LocalFileState>, path: string): LocalFileState {
    if path in records then records[path] else NO_RECORD
  }

  function StateFromVersion(v: FileVersion, time: int): LocalFileState {
    LocalFileState(v.path, v.fileId, v.versionId, v.state, v.deletedState, v.size, v.hash, v.chunks, v.modTime, time)
  }

  /** What `pushLocal` records once a deletion has been answered. */
  function DeletedRecord(path: string, fileId: Id, versionId: Id, deletedState: EntryState, time: int): LocalFileState {
    LocalFileState(path, fileId, versionId, Deleted, deletedState, 0, "", [], 0, time)
  }

  /** `tombstoneEntryState`. */
  function TombstoneEntryState(v: FileVersion, known: LocalFileState): EntryState {
    if !v.deletedState.Unset? then v.deletedState else known.state
  }

  function Max(a: nat, b: nat): nat { if a < b then b else a }

  /** The record a version leaves when `applyVersion` succeeds; a version already recorded is skipped. */
  function RecordVersion(records: map<string, LocalFileState>, v: FileVersion, time: int): map<string, LocalFileState> {
    match CleanRel(v.path)
    case Err(_) => records
    case Ok(rel) =>
      if rel in records && records[rel].versionId == v.versionId then records
      else records[rel := StateFromVersion(v, time)]
  }
}
