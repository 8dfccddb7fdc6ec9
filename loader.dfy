/**
 * load_binary, as the three thread hosts share it: open the guest image, then
 * read it in chunks of at most 4096 bytes straight into guest RAM through a
 * write pointer that advances by each chunk, until a read returns zero or an
 * error. Nothing compares the pointer with the RAM size.
 */
module ImageLoader {
  import opened KvmAbi

  /** The byte count every read asks for. */
  const READ_CHUNK: nat := 4096

  type Chunk = s: seq<byte> | |s| <= READ_CHUNK

  /**
   * One reply of read(fd, p, 4096): the bytes it stored (none at end of file)
   * or an error. Replies past the end of a list behave as end of file.
   */
  datatype ReadReply = Bytes(data: Chunk) | ReadError

  /** A reply that makes the loop go on: a read that returned a positive count. */
  predicate Positive(r: ReadReply) {
    r.Bytes? && |r.data| > 0
  }

  /** The image: the chunks of the positive replies before the first non-positive one, in order. */
  function Image(replies: seq<ReadReply>): seq<byte>
    decreases |replies|
  {
    if |replies| == 0 || !Positive(replies[0]) then [] else replies[0].data + Image(replies[1..])
  }

  /**
   * How load_binary ends: the image file would not open (exit status 1), the
   * image was stored in full, or the chunk read at offset `at` reaches past
   * the end of the RAM mapping, a write the C program does not prevent.
   */
  datatype LoadOutcome = OpenFailed | Loaded(total: nat) | Overrun(at: nat)

  /** The outcome of the read loop with the write pointer at offset p of a RAM block of ramSize bytes. */
  function LoadFrom(p: nat, ramSize: nat, replies: seq<ReadReply>): LoadOutcome
    decreases |replies|
  {
    if |replies| == 0 || !Positive(replies[0]) then Loaded(p)
    else if p + |replies[0].data| > ramSize then Overrun(p)
    else LoadFrom(p + |replies[0].data|, ramSize, replies[1..])
  }

  /** The outcome of load_binary for the result of open() and the replies of read(). */
  function Load(openRet: int, ramSize: nat, replies: seq<ReadReply>): LoadOutcome {
    if openRet < 0 then OpenFailed else LoadFrom(0, ramSize, replies)
  }

  /**
   * From offset p the loop stores the rest of the image in full exactly when
   * it fits; otherwise it stops at a chunk boundary inside RAM before the
   * image's end.
   */
  lemma {:induction false} LoadFromFits(p: nat, ramSize: nat, replies: seq<ReadReply>)
    requires p <= ramSize
    ensures !LoadFrom(p, ramSize, replies).OpenFailed?
    ensures LoadFrom(p, ramSize, replies).Loaded? <==> p + |Image(replies)| <= ramSize
    ensures LoadFrom(p, ramSize, replies).Loaded? ==> LoadFrom(p, ramSize, replies).total == p + |Image(replies)|
    ensures LoadFrom(p, ramSize, replies).Overrun? ==>
              var at := LoadFrom(p, ramSize, replies).at;
              p <= at <= ramSize && at < p + |Image(replies)|
    decreases |replies|
  {
    if |replies| > 0 && Positive(replies[0]) && p + |replies[0].data| <= ramSize {
      LoadFromFits(p + |replies[0].data|, ramSize, replies[1..]);
    }
  }

  /**
   * load_binary never fails on the size of the image: it loads the whole image
   * when it fits and otherwise writes past RAM; only a failed open stops it.
   */
  lemma LoadedIffFits(openRet: int, ramSize: nat, replies: seq<ReadReply>)
    ensures Load(openRet, ramSize, replies).OpenFailed? <==> openRet < 0
    ensures Load(openRet, ramSize, replies).Loaded? <==> openRet >= 0 && |Image(replies)| <= ramSize
    ensures Load(openRet, ramSize, replies).Loaded? ==> Load(openRet, ramSize, replies).total == |Image(replies)|
    ensures Load(openRet, ramSize, replies).Overrun? ==> Load(openRet, ramSize, replies).at < |Image(replies)|
  {
    LoadFromFits(0, ramSize, replies);
  }

  /** The image is at most 4096 bytes per positive reply that precedes the end. */
  lemma {:induction false} ImageChunkBound(replies: seq<ReadReply>)
    ensures |Image(replies)| <= READ_CHUNK * |replies|
    decreases |replies|
  {
    if |replies| > 0 && Positive(replies[0]) {
      ImageChunkBound(replies[1..]);
    }
  }

  /** One read() storing its chunk at the write pointer p. */
  method StoreChunk(ram: array<byte>, p: nat, chunk: Chunk)
    requires p + |chunk| <= ram.Length
    modifies ram
    ensures ram[..] == old(ram[..p]) + chunk + old(ram[p + |chunk|..])
  {
    for j := 0 to |chunk|
      invariant ram[..p] == old(ram[..p])
      invariant ram[p..p + j] == chunk[..j]
      invariant ram[p + j..] == old(ram[p + j..])
    {
      ram[p + j] := chunk[j];
    }
    assert ram[..] == ram[..p] + ram[p..p + |chunk|] + ram[p + |chunk|..];
  }

  /**
   * load_binary: RAM holds the image from offset 0 and is unchanged from the
   * end of the image on; on an overrun the chunks before the overrunning one
   * are in place.
   */
  method LoadBinary(ram: array<byte>, openRet: int, replies: seq<ReadReply>) returns (o: LoadOutcome)
    modifies ram
    ensures o == Load(openRet, ram.Length, replies)
    ensures o.OpenFailed? ==> ram[..] == old(ram[..])
    ensures o.Loaded? ==> o.total <= ram.Length && ram[..o.total] == Image(replies) && ram[o.total..] == old(ram[o.total..])
    ensures o.Overrun? ==> o.at <= ram.Length && o.at < |Image(replies)| && ram[..o.at] == Image(replies)[..o.at] && ram[o.at..] == old(ram[o.at..])
  {
    if openRet < 0 {
      return OpenFailed;
    }
    var p: nat := 0;
    var k := 0;
    assert replies[0..] == replies;
    while k < |replies| && Positive(replies[k]) && p + |replies[k].data| <= ram.Length
      invariant 0 <= k <= |replies| && p <= ram.Length
      invariant ram[..p] + Image(replies[k..]) == Image(replies)
      invariant LoadFrom(p, ram.Length, replies[k..]) == LoadFrom(0, ram.Length, replies)
      invariant ram[p..] == old(ram[p..])
      decreases |replies| - k
    {
      assert replies[k..][1..] == replies[k + 1..];
      ghost var before := ram[..p];
      var chunk := replies[k].data;
      StoreChunk(ram, p, chunk);
      assert ram[..p + |chunk|] == before + chunk;
      assert ram[p + |chunk|..] == old(ram[p + |chunk|..]) by {
        assert old(ram[p..])[|chunk|..] == old(ram[p + |chunk|..]);
      }
      p := p + |chunk|;
      k := k + 1;
    }
    if k < |replies| && Positive(replies[k]) {
      assert replies[k..][0] == replies[k];
      LoadedIffFits(openRet, ram.Length, replies);
      return Overrun(p);
    }
    return Loaded(p);
  }
}
