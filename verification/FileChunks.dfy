/** Cutting files into chunks (internal/fileutil/fileutil.go), sending them to the server and joining them
    again (`uploadFile` and `downloadVersion` in internal/client/sync.go). */
module FileChunks {
  import opened Model
  import opened StoreSpec
  import opened StoreInvariant
  import opened StoreGrowth
  import opened StoreCommit
  import opened StoreObject
  import ChunkRefs

  // ---------------------------------------------------------------- splitting

  function Min(a: nat, b: nat): nat { if a < b then a else b }

  /** The content in blocks of `size` bytes, the last one possibly shorter. */
  function Blocks(content: Bytes, size: nat): seq<Bytes>
    requires size > 0
    decreases |content|
  {
    if content == [] then []
    else [content[..Min(size, |content|)]] + Blocks(content[Min(size, |content|)..], size)
  }

  function RefOf(index: nat, block: Bytes): ChunkRef { ChunkRef(index, HashBytes(block), |block|) }

  /** The chunk list of blocks that stand at position `index` and after. */
  function RefsOf(blocks: seq<Bytes>, index: nat): (refs: seq<ChunkRef>)
    ensures |refs| == |blocks|
    ensures forall i | 0 <= i < |refs| :: refs[i] == RefOf(index + i, blocks[i])
  {
    seq(|blocks|, i requires 0 <= i < |blocks| => RefOf(index + i, blocks[i]))
  }

  function Concat(blocks: seq<Bytes>): Bytes {
    if blocks == [] then [] else Concat(blocks[..|blocks| - 1]) + blocks[|blocks| - 1]
  }

  lemma {:induction false} ConcatCons(block: Bytes, blocks: seq<Bytes>)
    ensures Concat([block] + blocks) == block + Concat(blocks)
  {
    if blocks == [] {
      assert ([block] + blocks)[..0] == [];
    } else {
      var n := |blocks| - 1;
      assert ([block] + blocks)[..n + 1] == [block] + blocks[..n];
      ConcatCons(block, blocks[..n]);
    }
  }

  /** Joining what was split gives the content back. */
  lemma {:induction false} JoinBlocks(content: Bytes, size: nat)
    requires size > 0
    ensures Concat(Blocks(content, size)) == content
    decreases |content|
  {
    if content != [] {
      var n := Min(size, |content|);
      JoinBlocks(content[n..], size);
      ConcatCons(content[..n], Blocks(content[n..], size));
    }
  }

  // ---------------------------------------------------------------- reading a file through a buffer

  datatype ReadStatus = Full | EndOfFile | UnexpectedEnd

  class Reader {
    const content: Bytes
    var pos: nat

    constructor (content: Bytes)
      ensures this.content == content && pos == 0
    {
      this.content := content;
      pos := 0;
    }

    /** `io.ReadFull`: fill the buffer, or as much of it as is left. */
    method ReadFull(buf: array<Byte>) returns (n: nat, status: ReadStatus)
      requires pos <= |content| && buf.Length > 0
      modifies this`pos, buf
      ensures n == Min(buf.Length, |content| - old(pos)) && pos == old(pos) + n
      ensures buf[..n] == content[old(pos)..pos]
      ensures status == (if n == 0 then EndOfFile else if n < buf.Length then UnexpectedEnd else Full)
    {
      n := Min(buf.Length, |content| - pos);
      for i := 0 to n
        invariant pos == old(pos)
        invariant buf[..i] == content[pos..pos + i]
      {
        buf[i] := content[pos + i];
        assert content[pos..pos + i + 1] == content[pos..pos + i] + [content[pos + i]];
      }
      pos := pos + n;
      status := if n == 0 then EndOfFile else if n < buf.Length then UnexpectedEnd else Full;
    }
  }

  /** `sent` are the blocks of the file up to the position. */
  ghost predicate ReadSoFar(content: Bytes, size: nat, pos: nat, sent: seq<Bytes>) {
    size > 0 && pos <= |content| && Blocks(content, size) == sent + Blocks(content[pos..], size)
  }

  /** One more block read. */
  lemma ReadOneMore(content: Bytes, size: nat, pos: nat, sent: seq<Bytes>)
    requires ReadSoFar(content, size, pos, sent) && pos < |content|
    ensures var n := Min(size, |content| - pos);
            ReadSoFar(content, size, pos + n, sent + [content[pos..pos + n]])
  {
    var n := Min(size, |content| - pos);
    assert content[pos..][..n] == content[pos..pos + n];
    assert content[pos..][n..] == content[pos + n..];
    assert sent + ([content[pos..pos + n]] + Blocks(content[pos + n..], size))
        == sent + [content[pos..pos + n]] + Blocks(content[pos + n..], size);
  }

  lemma ReadNothing(content: Bytes, size: nat)
    requires size > 0
    ensures ReadSoFar(content, size, 0, [])
  {
  }

  lemma ReadAll(content: Bytes, size: nat, sent: seq<Bytes>)
    requires ReadSoFar(content, size, |content|, sent)
    ensures sent == Blocks(content, size)
  {
  }

  lemma RefsSnoc(blocks: seq<Bytes>, block: Bytes)
    ensures RefsOf(blocks + [block], 0) == RefsOf(blocks, 0) + [RefOf(|blocks|, block)]
  {
  }

  /** `HashFile`: digest, chunk list and size of a file in one pass over a reused buffer. */
  method HashFile(content: Bytes, chunkSize: nat) returns (hash: string, chunks: seq<ChunkRef>, total: nat)
    requires chunkSize > 0
    ensures hash == HashBytes(content) && total == |content|
    ensures chunks == RefsOf(Blocks(content, chunkSize), 0)
  {
    hide Blocks, RefsOf, ReadSoFar;
    var f := new Reader(content);
    var buf := new Byte[chunkSize];
    var hashed: Bytes := [];
    chunks, total := [], 0;
    var index := 0;
    ghost var sent: seq<Bytes> := [];
    ReadNothing(content, chunkSize);
    while true
      invariant fresh(f) && fresh(buf) && f.content == content && buf.Length == chunkSize
      invariant f.pos <= |content| && total == f.pos && hashed == content[..f.pos] && index == |sent|
      invariant ReadSoFar(content, chunkSize, f.pos, sent) && chunks == RefsOf(sent, 0)
      decreases |content| - f.pos
    {
      ghost var start := f.pos;
      var n, status := f.ReadFull(buf);
      if status.EndOfFile? { break; }
      var part := buf[..n];
      ReadOneMore(content, chunkSize, start, sent);
      RefsSnoc(sent, part);
      chunks := chunks + [ChunkRef(index, HashBytes(part), n)];
      sent := sent + [part];
      hashed := hashed + part;
      total := total + n;
      index := index + 1;
      if status.UnexpectedEnd? { break; }
    }
    ReadAll(content, chunkSize, sent);
    assert hashed == content;
    hash := HashBytes(hashed);
  }

  // ---------------------------------------------------------------- uploading what is missing

  /** The chunk requests of one upload: put and grant every missing block. */
  function SendBlocks(s: Server, account: string, blocks: seq<Bytes>, missing: set<string>): Server {
    if blocks == [] then s
    else
      var before := SendBlocks(s, account, blocks[..|blocks| - 1], missing);
      var block := blocks[|blocks| - 1];
      var hash := HashBytes(block);
      if hash in missing then GrantAccountChunk(PutChunk(before, hash, block).0, account, hash).0 else before
  }

  /** The callback of `uploadFile`: send the chunk if it is missing. */
  method SendBlock(store: Store, account: string, block: Bytes, missing: set<string>, ghost s0: Server,
                   ghost sent: seq<Bytes>)
    requires store.Valid() && store.Tables() == SendBlocks(s0, account, sent, missing)
    modifies store
    ensures store.Valid() && store.Tables() == SendBlocks(s0, account, sent + [block], missing)
  {
    assert (sent + [block])[..|sent|] == sent;
    hide Inv;
    hide ChunkRefs.Conserved;
    var hash := HashBytes(block);
    if hash in missing {
      var _ := store.PutChunk(hash, block);
      var _ := store.GrantAccountChunk(account, hash);
    }
  }

  /** `WriteFileChunks` with that callback: the server is asked chunk by chunk. */
  method UploadMissing(store: Store, account: string, content: Bytes, chunkSize: nat, missing: set<string>)
    requires chunkSize > 0 && store.Valid()
    modifies store
    ensures store.Tables() == SendBlocks(old(store.Tables()), account, Blocks(content, chunkSize), missing)
    ensures store.Valid()
  {
    hide Blocks, ReadSoFar, SendBlocks, Inv;
    hide ChunkRefs.Conserved;
    var f := new Reader(content);
    var buf := new Byte[chunkSize];
    ghost var sent: seq<Bytes> := [];
    ReadNothing(content, chunkSize);
    SendNothing(store.Tables(), account, missing);
    while true
      invariant fresh(f) && fresh(buf) && f.content == content && buf.Length == chunkSize && f.pos <= |content|
      invariant ReadSoFar(content, chunkSize, f.pos, sent)
      invariant store.Tables() == SendBlocks(old(store.Tables()), account, sent, missing) && store.Valid()
      decreases |content| - f.pos
    {
      ghost var start := f.pos;
      var n, status := f.ReadFull(buf);
      if status.EndOfFile? { break; }
      var part := buf[..n];
      ReadOneMore(content, chunkSize, start, sent);
      SendBlock(store, account, part, missing, old(store.Tables()), sent);
      sent := sent + [part];
      if status.UnexpectedEnd? { break; }
    }
    ReadAll(content, chunkSize, sent);
  }

  lemma SendNothing(s: Server, account: string, missing: set<string>)
    ensures SendBlocks(s, account, [], missing) == s
  {
  }

  /** The chunk request of one block: put in some state after `s`, granted in a later one before `s'`. */
  ghost predicate Delivered(s: Server, s': Server, account: string, block: Bytes) {
    var hash := HashBytes(block);
    exists put: Server, granted: Server ::
      Grows(s, put) && Grows(PutChunk(put, hash, block).0, granted)
      && Grows(GrantAccountChunk(granted, account, hash).0, s')
  }

  lemma HasStable(s: Server, s': Server, account: string, hash: string)
    requires Grows(s, s') && HasAccountChunk(s, account, hash)
    ensures HasAccountChunk(s', account, hash)
  {
  }

  lemma DeliveredAvailable(s: Server, s': Server, account: string, block: Bytes)
    requires Delivered(s, s', account, block)
    ensures HasAccountChunk(s', account, HashBytes(block))
  {
  }

  lemma DeliveredEarlier(s0: Server, s: Server, s': Server, s1: Server, account: string, block: Bytes)
    requires Grows(s0, s) && Delivered(s, s', account, block) && Grows(s', s1)
    ensures Delivered(s0, s1, account, block)
  {
    hide Grows, PutChunk, GrantAccountChunk;
    var hash := HashBytes(block);
    var put: Server, granted: Server :| Grows(s, put) && Grows(PutChunk(put, hash, block).0, granted)
        && Grows(GrantAccountChunk(granted, account, hash).0, s');
    GrowsTransitive(s0, s, put);
    GrowsTransitive(GrantAccountChunk(granted, account, hash).0, s', s1);
  }

  lemma SendOneDelivers(s: Server, account: string, block: Bytes)
    ensures var hash := HashBytes(block);
            var s' := GrantAccountChunk(PutChunk(s, hash, block).0, account, hash).0;
            Delivered(s, s', account, block) && Grows(s, s')
  {
    var hash := HashBytes(block);
    PutChunkGrows(s, hash, block);
    GrantGrows(PutChunk(s, hash, block).0, account, hash);
    hide Grows, PutChunk, GrantAccountChunk;
    var s1 := PutChunk(s, hash, block).0;
    var s' := GrantAccountChunk(s1, account, hash).0;
    GrowsReflexive(s);
    GrowsReflexive(s1);
    GrowsReflexive(s');
    GrowsTransitive(s, s1, s');
    assert Delivered(s, s', account, block);
  }

  /** The chunk loop of an upload delivers every block that was missing. */
  lemma {:induction false} SendBlocksDelivers(s: Server, account: string, blocks: seq<Bytes>, missing: set<string>)
    ensures Grows(s, SendBlocks(s, account, blocks, missing))
    ensures forall i | 0 <= i < |blocks| && HashBytes(blocks[i]) in missing ::
              Delivered(s, SendBlocks(s, account, blocks, missing), account, blocks[i])
  {
    hide Grows, PutChunk, GrantAccountChunk, Delivered;
    if blocks == [] {
      GrowsReflexive(s);
    } else {
      var front := blocks[..|blocks| - 1];
      var block := blocks[|blocks| - 1];
      var s1, s2 := SendBlocks(s, account, front, missing), SendBlocks(s, account, blocks, missing);
      SendBlocksDelivers(s, account, front, missing);
      SendOneDelivers(s1, account, block);
      GrowsReflexive(s1);
      GrowsReflexive(s2);
      GrowsReflexive(s);
      GrowsTransitive(s, s1, s2);
      forall i | 0 <= i < |blocks| && HashBytes(blocks[i]) in missing
        ensures Delivered(s, s2, account, blocks[i])
      {
        if i < |front| {
          assert front[i] == blocks[i];
          DeliveredEarlier(s, s, s1, s2, account, blocks[i]);
        } else {
          DeliveredEarlier(s, s1, s2, s2, account, block);
        }
      }
    }
  }

  /** `CheckChunks` reports exactly the hashes the account cannot use. */
  lemma {:induction false} CheckChunksExact(s: Server, account: string, hashes: seq<string>, hash: string)
    ensures hash in CheckChunks(s, account, hashes) <==> hash in hashes && !HasAccountChunk(s, account, hash)
  {
    hide HasAccountChunk;
    if hashes != [] { CheckChunksExact(s, account, hashes[1..], hash); }
  }

  function HashesOf(refs: seq<ChunkRef>): (h: seq<string>)
    ensures |h| == |refs| && forall i | 0 <= i < |refs| :: h[i] == refs[i].hash
  {
    seq(|refs|, i requires 0 <= i < |refs| => refs[i].hash)
  }

  /** The blocks are available to the account. */
  ghost predicate BlocksAvailable(s: Server, account: string, blocks: seq<Bytes>) {
    forall i | 0 <= i < |blocks| :: HasAccountChunk(s, account, HashBytes(blocks[i]))
  }

  /** Every block that was reported missing in `s0` is delivered before `s2`. */
  ghost predicate MissingDelivered(s0: Server, s2: Server, account: string, blocks: seq<Bytes>) {
    var missing := CheckChunks(s0, account, HashesOf(RefsOf(blocks, 0)));
    forall i | 0 <= i < |blocks| && HashBytes(blocks[i]) in missing :: Delivered(s0, s2, account, blocks[i])
  }

  /** Asking which chunks are missing and sending those, each in a request of its own and with anything happening
      between any two steps, makes every block of the file available. */
  lemma UploadSuffices(s0: Server, s2: Server, account: string, blocks: seq<Bytes>)
    requires Grows(s0, s2) && MissingDelivered(s0, s2, account, blocks)
    ensures BlocksAvailable(s2, account, blocks)
  {
    hide Grows, CheckChunks, Delivered, HasAccountChunk;
    var hashes := HashesOf(RefsOf(blocks, 0));
    forall i | 0 <= i < |blocks| ensures HasAccountChunk(s2, account, HashBytes(blocks[i])) {
      var hash := HashBytes(blocks[i]);
      assert hashes[i] == hash;
      CheckChunksExact(s0, account, hashes, hash);
      if hash in CheckChunks(s0, account, hashes) {
        DeliveredAvailable(s0, s2, account, blocks[i]);
      } else {
        HasStable(s0, s2, account, hash);
      }
    }
  }

  /** The chunk loop run in one go from `s1` does so. */
  lemma LoopDelivers(s0: Server, s1: Server, s2: Server, account: string, blocks: seq<Bytes>)
    requires Grows(s0, s1)
    requires var missing := set h | h in CheckChunks(s0, account, HashesOf(RefsOf(blocks, 0)));
             Grows(SendBlocks(s1, account, blocks, missing), s2)
    ensures Grows(s0, s2) && MissingDelivered(s0, s2, account, blocks)
  {
    hide Grows, CheckChunks, SendBlocks, Delivered;
    var missing := set h | h in CheckChunks(s0, account, HashesOf(RefsOf(blocks, 0)));
    var sent := SendBlocks(s1, account, blocks, missing);
    SendBlocksDelivers(s1, account, blocks, missing);
    GrowsTransitive(s0, s1, sent);
    GrowsTransitive(s0, sent, s2);
    forall i | 0 <= i < |blocks| && HashBytes(blocks[i]) in missing ensures Delivered(s0, s2, account, blocks[i]) {
      DeliveredEarlier(s0, s1, sent, s2, account, blocks[i]);
    }
  }

  // ---------------------------------------------------------------- verifying and joining

  /** A chunk file that differs from the block of the same digest. */
  ghost predicate Collides(s: Server, block: Bytes) {
    HashBytes(block) in s.chunks && Collision(block, s.chunks[HashBytes(block)])
  }

  lemma {:induction false} AssembleBlocks(s: Server, blocks: seq<Bytes>, i: nat)
    requires i <= |blocks|
    requires forall j | 0 <= j < |blocks| ::
               HashBytes(blocks[j]) in s.chunks && s.chunks[HashBytes(blocks[j])] == blocks[j]
    ensures Assemble(s.chunks, RefsOf(blocks, 0)[..i]) == Concat(blocks[..i])
  {
    var refs := RefsOf(blocks, 0);
    if i > 0 {
      AssembleBlocks(s, blocks, i - 1);
      assert refs[..i][..i - 1] == refs[..i - 1];
      assert blocks[..i][..i - 1] == blocks[..i - 1];
      assert refs[..i][i - 1] == RefOf(i - 1, blocks[i - 1]);
    }
  }

  lemma {:induction false} VerifyFromComplete(s: Server, account: string, m: Manifest, i: nat, data: Bytes)
    requires i <= |m.chunks| && data == Assemble(s.chunks, m.chunks[..i])
    requires forall j | 0 <= j < |m.chunks| ::
               m.chunks[j].index == j && HasAccountChunk(s, account, m.chunks[j].hash)
               && |s.chunks[m.chunks[j].hash]| == m.chunks[j].size
    requires |Assemble(s.chunks, m.chunks)| == m.size && HashBytes(Assemble(s.chunks, m.chunks)) == m.hash
    ensures VerifyFrom(s, account, m, i, data).Ok?
    decreases |m.chunks| - i
  {
    if i == |m.chunks| {
      assert m.chunks[..i] == m.chunks;
    } else {
      assert m.chunks[..i + 1][..i] == m.chunks[..i];
      VerifyFromComplete(s, account, m, i + 1, data + s.chunks[m.chunks[i].hash]);
    }
  }

  /** The manifest `uploadFile` sends for a file of this content. */
  ghost predicate Describes(m: Manifest, content: Bytes, chunkSize: nat)
    requires chunkSize > 0
  {
    m.size == |content| && m.hash == HashBytes(content) && m.chunks == RefsOf(Blocks(content, chunkSize), 0)
  }

  lemma NoCollision(s: Server, account: string, blocks: seq<Bytes>)
    requires ChunksOk(s.chunks) && BlocksAvailable(s, account, blocks)
    requires forall i | 0 <= i < |blocks| :: !Collides(s, blocks[i])
    ensures forall i | 0 <= i < |blocks| ::
              HashBytes(blocks[i]) in s.chunks && s.chunks[HashBytes(blocks[i])] == blocks[i]
  {
  }

  /** Whatever the content and the chunk size: once the blocks are available, the manifest is accepted and its
      chunks join to the original bytes, or some block and the chunk file of its digest are two different
      byte strings with the same digest. */
  lemma AcceptedAndJoined(s: Server, account: string, m: Manifest, content: Bytes, chunkSize: nat)
    requires chunkSize > 0 && Describes(m, content, chunkSize)
    requires ChunksOk(s.chunks) && BlocksAvailable(s, account, Blocks(content, chunkSize))
    ensures (Verify(s, account, m).Ok? && Assemble(s.chunks, m.chunks) == content)
            || exists i :: 0 <= i < |Blocks(content, chunkSize)| && Collides(s, Blocks(content, chunkSize)[i])
  {
    hide Collides, Blocks;
    var blocks := Blocks(content, chunkSize);
    JoinBlocks(content, chunkSize);
    if forall i | 0 <= i < |blocks| :: !Collides(s, blocks[i]) {
      NoCollision(s, account, blocks);
      AssembleBlocks(s, blocks, |blocks|);
      assert m.chunks[..|blocks|] == m.chunks && blocks[..|blocks|] == blocks;
      forall j | 0 <= j < |m.chunks|
        ensures m.chunks[j].index == j && HasAccountChunk(s, account, m.chunks[j].hash)
                && |s.chunks[m.chunks[j].hash]| == m.chunks[j].size
      {
        assert m.chunks[j] == RefOf(j, blocks[j]);
      }
      if |m.chunks| > 0 { VerifyFromComplete(s, account, m, 0, []); }
    }
  }

  // ---------------------------------------------------------------- downloading

  /** The bytes `getChunk` serves to an account. */
  function ServeChunk(s: Server, account: string, hash: string): Result<Bytes> {
    if HasAccountChunk(s, account, hash) then Ok(s.chunks[hash]) else Err("chunk not found")
  }

  /** What `downloadVersion` writes, chunk by chunk, from chunk `i` on. */
  function FetchFrom(s: Server, account: string, refs: seq<ChunkRef>, i: nat, data: Bytes): Result<Bytes>
    requires i <= |refs|
    decreases |refs| - i
  {
    if i == |refs| then Ok(data)
    else match ServeChunk(s, account, refs[i].hash) {
      case Err(e) => Err(e)
      case Ok(part) =>
        if |part| != refs[i].size then Err("chunk size mismatch")
        else if HashBytes(part) != refs[i].hash then Err("chunk hash mismatch")
        else FetchFrom(s, account, refs, i + 1, data + part)
    }
  }

  /** The whole-file check that follows the rename. */
  predicate WholeFileOk(data: Bytes, v: FileVersion) { HashBytes(data) == v.hash && |data| == v.size }

  lemma {:induction false} FetchJoins(s: Server, account: string, refs: seq<ChunkRef>, i: nat, data: Bytes)
    requires ChunksOk(s.chunks) && Stored(s.chunks, refs) && i <= |refs| && data == Assemble(s.chunks, refs[..i])
    requires forall j | 0 <= j < |refs| :: (account, refs[j].hash) in s.grants
    ensures FetchFrom(s, account, refs, i, data) == Ok(Assemble(s.chunks, refs))
    decreases |refs| - i
  {
    if i == |refs| {
      assert refs[..i] == refs;
    } else {
      assert refs[..i + 1][..i] == refs[..i];
      FetchJoins(s, account, refs, i + 1, data + s.chunks[refs[i].hash]);
    }
  }

  /** No download of a stored file version can fail on the server's side: every chunk is served with the right
      size and digest, and the check of the whole file, made after the rename, passes. */
  lemma DownloadCannotFail(s: Server, id: Id, i: nat)
    requires Inv(s) && id in s.versions && i < |s.versions[id]| && s.versions[id][i].state.File?
    ensures var v := s.versions[id][i];
            FetchFrom(s, v.account, v.chunks, 0, []) == Ok(Assemble(s.chunks, v.chunks))
            && WholeFileOk(Assemble(s.chunks, v.chunks), v)
  {
    hide HistoriesOk, UniqueVersionIds, FilesOk, LogOk, WindowOk, ReplayOk, OpsOk;
    var v := s.versions[id][i];
    assert Available(s.chunks, s.grants, v);
    FetchJoins(s, v.account, v.chunks, 0, []);
  }

  /** Upload, then download: for any content and any positive chunk size, from checking which chunks are missing
      (in `s0`) over sending each of them to committing (in `s2`) and downloading at any later time (in `s3`), with
      anything else happening between any two requests, the manifest is accepted and the bytes come back unchanged,
      unless two different byte strings with the same digest are at hand. */
  lemma RoundTrip(s0: Server, s2: Server, s3: Server, account: string, m: Manifest, content: Bytes, chunkSize: nat)
    requires chunkSize > 0 && Describes(m, content, chunkSize)
    requires Grows(s0, s2) && Grows(s2, s3) && ChunksOk(s2.chunks) && ChunksOk(s3.chunks)
    requires MissingDelivered(s0, s2, account, Blocks(content, chunkSize))
    ensures (Verify(s2, account, m).Ok? && FetchFrom(s3, account, m.chunks, 0, []) == Ok(content))
            || exists i :: 0 <= i < |Blocks(content, chunkSize)| && Collides(s2, Blocks(content, chunkSize)[i])
  {
    hide Collides, Blocks, Grows, MissingDelivered, Verify, ChunksOk, BlocksAvailable, HasAccountChunk;
    UploadSuffices(s0, s2, account, Blocks(content, chunkSize));
    AcceptedAndJoined(s2, account, m, content, chunkSize);
    if Verify(s2, account, m).Ok? && Assemble(s2.chunks, m.chunks) == content {
      VerifiedFetch(s2, s3, account, m);
    }
  }

  lemma VerifiedFetch(s: Server, s': Server, account: string, m: Manifest)
    requires Verify(s, account, m).Ok? && Grows(s, s') && ChunksOk(s'.chunks)
    ensures FetchFrom(s', account, m.chunks, 0, []) == Ok(Assemble(s.chunks, m.chunks))
  {
    hide VersionsGrow, OpsGrow, ChunksOk;
    if |m.chunks| > 0 { VerifyFromSound(s, account, m, 0, []); }
    AssembleStable(s.chunks, s'.chunks, m.chunks);
    FetchJoins(s', account, m.chunks, 0, []);
  }
}
