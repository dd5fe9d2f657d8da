/**
 One pass over a file yields its size, SHA-1, SHA-256 and Dropbox content hash. The content
 hash is SHA-256 over the concatenated SHA-256 digests of consecutive 4 MiB blocks; reads need
 not line up with blocks. The digest functions themselves are parameters.
 */
module Hashing {

  type Bytes = seq<bv8>

  const BLOCK_SIZE: nat := 4 * 1024 * 1024
  const STREAM_SIZE: nat := 1024 * 1024

  // ---- the published definition ----

  function Concat(parts: seq<Bytes>): Bytes {
    if parts == [] then [] else parts[0] + Concat(parts[1..])
  }

  /** Consecutive blocks of `data`: full ones, then one short block if anything is left. */
  ghost predicate AreBlocks(parts: seq<Bytes>, data: Bytes) {
    && Concat(parts) == data
    && (forall i :: 0 <= i < |parts| - 1 ==> |parts[i]| == BLOCK_SIZE)
    && (parts != [] ==> 0 < |parts[|parts| - 1]| <= BLOCK_SIZE)
  }

  function Blocks(data: Bytes): (parts: seq<Bytes>)
    ensures AreBlocks(parts, data)
    decreases |data|
  {
    if |data| == 0 then []
    else if |data| <= BLOCK_SIZE then [data]
    else
      var rest := Blocks(data[BLOCK_SIZE..]);
      assert Concat([data[..BLOCK_SIZE]] + rest) == data[..BLOCK_SIZE] + data[BLOCK_SIZE..] by {
        assert ([data[..BLOCK_SIZE]] + rest)[1..] == rest;
      }
      [data[..BLOCK_SIZE]] + rest
  }

  /** There is one way to cut data into blocks. */
  lemma {:induction false} BlocksAreUnique(parts: seq<Bytes>, data: Bytes)
    requires AreBlocks(parts, data)
    ensures parts == Blocks(data)
    decreases |parts|
  {
    if |parts| == 1 {
      assert Concat(parts[1..]) == [];
      assert data == parts[0] + [] == parts[0] && parts == [parts[0]];
    } else if |parts| > 1 {
      var rest := parts[1..];
      var tail := Concat(rest);
      assert data == parts[0] + tail && |parts[0]| == BLOCK_SIZE;
      assert forall i :: 0 <= i < |rest| ==> rest[i] == parts[i + 1];
      BlocksAreUnique(rest, tail);
      assert |tail| > 0;
      assert data[..BLOCK_SIZE] == parts[0] && data[BLOCK_SIZE..] == tail;
      assert parts == [parts[0]] + rest;
    }
  }

  function Digests(h: Bytes -> Bytes, parts: seq<Bytes>): Bytes {
    if parts == [] then [] else h(parts[0]) + Digests(h, parts[1..])
  }

  function ContentHash(h: Bytes -> Bytes, data: Bytes): Bytes {
    h(Digests(h, Blocks(data)))
  }

  // ---- one more block ----

  lemma {:induction false} ConcatAppends(parts: seq<Bytes>, block: Bytes)
    ensures Concat(parts + [block]) == Concat(parts) + block
  {
    if parts == [] {
      assert [block][1..] == [];
    } else {
      ConcatAppends(parts[1..], block);
      assert (parts + [block])[1..] == parts[1..] + [block];
    }
  }

  lemma {:induction false} DigestsAppend(h: Bytes -> Bytes, parts: seq<Bytes>, block: Bytes)
    ensures Digests(h, parts + [block]) == Digests(h, parts) + h(block)
  {
    if parts == [] {
      assert [block][1..] == [];
    } else {
      DigestsAppend(h, parts[1..], block);
      assert (parts + [block])[1..] == parts[1..] + [block];
    }
  }

  /** Every block so far is full. */
  ghost predicate AllFull(parts: seq<Bytes>) {
    forall i :: 0 <= i < |parts| ==> |parts[i]| == BLOCK_SIZE
  }

  lemma FullBlocksThenOne(parts: seq<Bytes>, block: Bytes, data: Bytes)
    requires AllFull(parts) && |block| <= BLOCK_SIZE && data == Concat(parts) + block
    ensures Blocks(data) == if block == [] then parts else parts + [block]
  {
    if block == [] {
      BlocksAreUnique(parts, data);
    } else {
      ConcatAppends(parts, block);
      BlocksAreUnique(parts + [block], data);
    }
  }

  // ---- the pass ----

  /** A stream of bytes; one read returns as few as it likes, and none only at the end. */
  class Stream {
    var rest: Bytes

    constructor (data: Bytes)
      ensures rest == data
    {
      rest := data;
    }

    method Read(limit: nat) returns (chunk: Bytes)
      requires limit > 0
      modifies this
      ensures |chunk| <= limit && old(rest) == chunk + rest
      ensures chunk == [] <==> old(rest) == []
    {
      var most := if |rest| <= limit then |rest| else limit;
      var n: int := *;
      if n <= 0 || n > most {
        n := most;
      }
      chunk := rest[..n];
      rest := rest[n..];
    }
  }

  /**
   A running digest is known by the bytes fed to it. Between parts the outer digest has been
   fed the digests of the full blocks, and the block digest the bytes after them.
   */
  ghost predicate Running(h: Bytes -> Bytes, full: seq<Bytes>, dropbox: Bytes, block: Bytes) {
    AllFull(full) && |block| < BLOCK_SIZE && dropbox == Digests(h, full)
  }

  /** A full block's digest goes to the outer one, and the next block starts empty. */
  lemma ClosingABlock(h: Bytes -> Bytes, full: seq<Bytes>, dropbox: Bytes, block: Bytes)
    requires AllFull(full) && |block| == BLOCK_SIZE && dropbox == Digests(h, full)
    ensures Running(h, full + [block], dropbox + h(block), [])
    ensures Concat(full + [block]) + [] == Concat(full) + block
  {
    DigestsAppend(h, full, block);
    ConcatAppends(full, block);
  }

  /** The inner loop: one chunk, cut wherever a block fills up. */
  method FeedBlocks(
      h: Bytes -> Bytes, dropbox: Bytes, block: Bytes, blockSize: nat, chunk: Bytes, ghost full: seq<Bytes>)
    returns (dropbox': Bytes, block': Bytes, blockSize': nat, ghost full': seq<Bytes>)
    requires Running(h, full, dropbox, block) && blockSize == |block|
    ensures Running(h, full', dropbox', block') && blockSize' == |block'|
    ensures Concat(full') + block' == Concat(full) + block + chunk
  {
    dropbox', block', blockSize', full' := dropbox, block, blockSize, full;
    var offset := 0;
    while offset < |chunk|
      invariant 0 <= offset <= |chunk|
      invariant Running(h, full', dropbox', block') && blockSize' == |block'|
      invariant Concat(full') + block' == Concat(full) + block + chunk[..offset]
    {
      var take := if BLOCK_SIZE - blockSize' < |chunk| - offset then BLOCK_SIZE - blockSize' else |chunk| - offset;
      var part := chunk[offset..offset + take];
      assert chunk[..offset + take] == chunk[..offset] + part;
      assert Concat(full') + (block' + part) == (Concat(full') + block') + part;
      block' := block' + part;
      blockSize' := blockSize' + take;
      offset := offset + take;
      if blockSize' == BLOCK_SIZE {
        ClosingABlock(h, full', dropbox', block');
        full' := full' + [block'];
        dropbox' := dropbox' + h(block');
        block', blockSize' := [], 0;
      }
    }
    assert chunk[..offset] == chunk;
  }

  /** The short last block, if there is one, and the outer digest. */
  method CloseLast(h: Bytes -> Bytes, dropbox: Bytes, block: Bytes, blockSize: nat, ghost full: seq<Bytes>)
    returns (digest: Bytes)
    requires Running(h, full, dropbox, block) && blockSize == |block|
    ensures digest == ContentHash(h, Concat(full) + block)
  {
    FullBlocksThenOne(full, block, Concat(full) + block);
    if blockSize > 0 {
      DigestsAppend(h, full, block);
      digest := h(dropbox + h(block));
    } else {
      digest := h(dropbox);
    }
  }

  datatype FileHashes = FileHashes(size: nat, sha256: Bytes, sha1: Bytes, contentHash: Bytes)

  /**
   The whole pass. Whatever way the reads split the stream, the four results are those of the
   bytes as a whole.
   */
  method HashStream(stream: Stream, sha256: Bytes -> Bytes, sha1: Bytes -> Bytes) returns (r: FileHashes)
    modifies stream
    ensures stream.rest == []
    ensures r.size == |old(stream.rest)|
    ensures r.sha256 == sha256(old(stream.rest)) && r.sha1 == sha1(old(stream.rest))
    ensures r.contentHash == ContentHash(sha256, old(stream.rest))
  {
    var wide, narrow: Bytes, dropbox: Bytes, block: Bytes := [], [], [], [];
    ghost var full := [];
    var blockSize, size := 0, 0;
    var chunk := stream.Read(STREAM_SIZE);
    while chunk != []
      invariant Running(sha256, full, dropbox, block) && blockSize == |block|
      invariant wide + (chunk + stream.rest) == old(stream.rest)
      invariant narrow == Concat(full) + block == wide && size == |wide|
      invariant chunk == [] ==> stream.rest == []
      decreases |chunk| + |stream.rest|
    {
      size := size + |chunk|;
      wide := wide + chunk;
      narrow := narrow + chunk;
      dropbox, block, blockSize, full := FeedBlocks(sha256, dropbox, block, blockSize, chunk, full);
      ghost var left := stream.rest;
      chunk := stream.Read(STREAM_SIZE);
      assert left == chunk + stream.rest;
    }
    assert chunk + stream.rest == [] && wide + [] == wide;
    var contentHash := CloseLast(sha256, dropbox, block, blockSize, full);
    r := FileHashes(size, sha256(wide), sha1(narrow), contentHash);
  }
}
