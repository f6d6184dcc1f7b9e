/** The records exchanged by the xcloud server and its clients (internal/syncmodel/model.go),
    as values.  Sequence numbers, sizes and times are unbounded integers. */
module Model {

  datatype Option<+T> = None | Some(value: T)

  datatype Result<+T> = Ok(value: T) | Err(error: string)

  /** A file, version or directory id.  `NoId` is the empty string, `Issued(n)` the n-th id the server
      drew from its id source, `Foreign` any other text a caller may put in a request. */
  datatype Id = NoId | Issued(n: nat) | Foreign(text: string)

  /** The state column of a manifest, version or local record; `Unset` is the empty string. */
  datatype EntryState = Unset | File | Dir | Deleted | Unknown(text: string)

  type Byte = bv8
  type Bytes = seq<Byte>

  predicate IsHexDigit(c: char) { '0' <= c <= '9' || 'a' <= c <= 'f' }

  /** `isHash`: 64 lower-case hexadecimal digits. */
  predicate IsHash(s: string) { |s| == 64 && forall i | 0 <= i < |s| :: IsHexDigit(s[i]) }

  type Digest = s: string | IsHash(s) witness seq(64, _ => '0')

  /** SHA-256 in hexadecimal, left uninterpreted: every statement of this project holds for whatever
      function from byte strings to digests this constant stands for. */
  const HashBytes: Bytes -> Digest

  /** Two different byte strings with the same digest. */
  ghost predicate Collision(x: Bytes, y: Bytes) { x != y && HashBytes(x) == HashBytes(y) }

  datatype ChunkRef = ChunkRef(index: int, hash: string, size: int)

  datatype FileVersion = FileVersion(
    account: string, space: string, fileId: Id, path: string, versionId: Id, base: Id,
    state: EntryState, deletedState: EntryState, size: int, hash: string, chunks: seq<ChunkRef>,
    modTime: int, deletedAt: int, device: string, root: string, createdAt: int)

  datatype FileEntry = FileEntry(
    account: string, space: string, fileId: Id, path: string,
    current: Option<FileVersion>, deleted: bool, latest: Id, updatedAt: int)

  /** The other columns of an event repeat fields of the embedded version. */
  datatype Event = Event(seqNo: nat, version: FileVersion)

  datatype LocalFileState = LocalFileState(
    path: string, fileId: Id, versionId: Id, state: EntryState, deletedState: EntryState,
    size: int, hash: string, chunks: seq<ChunkRef>, modTime: int, updatedAt: int)

  datatype Manifest = Manifest(
    fileId: Id, path: string, base: Id, state: EntryState, size: int, hash: string,
    chunks: seq<ChunkRef>, modTime: int)

  datatype CommitRequest = CommitRequest(opId: string, device: string, root: string, manifest: Manifest)

  datatype DeleteRequest = DeleteRequest(
    opId: string, device: string, root: string, path: string, fileId: Id, base: Id)

  datatype RestoreRequest = RestoreRequest(space: string, fileId: Id, path: string)

  datatype Status = StatusOk | StatusConflict

  /** `version` is `None` where the server answers with the zero version. */
  datatype CommitResponse = CommitResponse(
    status: Status, entry: FileEntry, version: Option<FileVersion>,
    conflict: bool, conflictPath: string, currentVersion: Option<FileVersion>)

  const MAX_EVENTS: nat := 10000
  const TRASH_RETENTION_SECONDS: int := 10 * 24 * 60 * 60
  const MAX_SYNC_RECORDS_PER_ACCOUNT: nat := 5000
  const CLOUD_TRASH_ROOT := "cloud-trash"

  /** `fileKey` and `operationKey` join their three parts with NUL; see `Text.JoinKeyInjective`. */
  datatype Key = Key(account: string, space: string, name: string)
}
