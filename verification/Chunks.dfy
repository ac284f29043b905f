/** Fetching a page in chunks. */
module Chunks {
  import opened Bytes

  const CHUNK_BYTES: nat := 0x10_0000

  datatype Response = Body(bytes: Text) | InvalidOffset | CacheMissing

  /**
   One page request: `index` among `sizes`, `file` the contents found on disk. The offset is
   checked for alignment before anything else and for range against the recorded size.
   */
  function PageChunk(sizes: seq<nat>, file: Text, index: int, offset: nat): Response {
    if index < 0 || offset % CHUNK_BYTES != 0 then InvalidOffset
    else if index >= |sizes| then InvalidOffset
    else
      var size := sizes[index];
      if offset >= size then InvalidOffset
      else
        var remaining := size - offset;
        var chunk := if remaining < CHUNK_BYTES then remaining else CHUNK_BYTES;
        if offset + chunk > |file| then CacheMissing
        else Body(file[offset..offset + chunk])
  }

  /** What a client assembles that fetches every chunk from `offset` on. */
  function FetchFrom(sizes: seq<nat>, file: Text, index: nat, offset: nat): (page: Text)
    requires index < |sizes| && |file| == sizes[index]
    decreases |file| - offset
  {
    if offset >= |file| then []
    else match PageChunk(sizes, file, index, offset)
      case Body(bytes) =>
        if bytes == [] then [] else bytes + FetchFrom(sizes, file, index, offset + CHUNK_BYTES)
      case _ => []
  }

  /**
   An offset is refused exactly when it is misaligned or out of range; any other one yields 1 to
   CHUNK_BYTES bytes.
   */
  lemma ChunkServedIff(sizes: seq<nat>, file: Text, index: int, offset: nat)
    requires 0 <= index < |sizes| ==> |file| == sizes[index]
    ensures var r := PageChunk(sizes, file, index, offset);
            && r != CacheMissing
            && (r.Body? <==> 0 <= index < |sizes| && offset % 1048576 == 0 && offset < |file|)
            && (r.Body? ==>
              && 0 < |r.bytes| <= 1048576 && r.bytes <= file[offset..]
              && (|r.bytes| < 1048576 ==> offset + |r.bytes| == |file|))
  {
  }

  /** The chunks from an aligned offset on are the rest of the page. */
  lemma {:induction false} FetchedRest(sizes: seq<nat>, file: Text, index: nat, offset: nat)
    requires index < |sizes| && |file| == sizes[index] && offset % CHUNK_BYTES == 0
    ensures FetchFrom(sizes, file, index, offset) == if offset >= |file| then [] else file[offset..]
    decreases |file| - offset
  {
    if offset < |file| {
      FetchedRest(sizes, file, index, offset + CHUNK_BYTES);
      var chunk := if |file| - offset < CHUNK_BYTES then |file| - offset else CHUNK_BYTES;
      assert PageChunk(sizes, file, index, offset) == Body(file[offset..offset + chunk]);
      assert file[offset..] == file[offset..offset + chunk] + file[offset + chunk..];
    }
  }

  /** Offsets 0, C, 2C, ... reassemble the exact page. */
  lemma ChunkRoundTrip(sizes: seq<nat>, file: Text, index: nat)
    requires index < |sizes| && |file| == sizes[index]
    ensures FetchFrom(sizes, file, index, 0) == file
  {
    FetchedRest(sizes, file, index, 0);
    assert file[0..] == file;
  }
}
