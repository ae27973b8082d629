/** Chunk geometry, the binary chunk frame, and the byte layouts bound into AES-GCM:
client/src/lib/transfer/protocol.ts and client/src/lib/crypto.ts. */
module TransferProtocol {

  import opened Common
  import ChunkBitmap

  type byte = x: int | 0 <= x < 256

  const WORD := ChunkBitmap.WORD
  const CHUNK_SIZE := 252 * 1024
  const MAX_FILE_SIZE := 16 * 1024 * 1024 * 1024
  const MAX_TOTAL_CHUNKS := 0xFFFF_FFFF

  // ----- geometry -----

  function ExpectedChunkCount(fileSize: nat): nat {
    if fileSize == 0 then 0 else (fileSize + CHUNK_SIZE - 1) / CHUNK_SIZE
  }

  function ExpectedChunkLength(fileSize: nat, index: int): int {
    Max(0, Min(CHUNK_SIZE, fileSize - index * CHUNK_SIZE))
  }

  /** The chunk windows tile the file: byte `b` lies in the window of chunk `i`, for `i` a legal index,
  exactly when `b` is a byte of the file and `i` is its chunk. No byte is lost, none is sent twice,
  and no window leaves the file. */
  lemma WindowsTileTheFile(fileSize: nat, i: int, b: int)
    ensures 0 <= i < ExpectedChunkCount(fileSize)
            && i * CHUNK_SIZE <= b < i * CHUNK_SIZE + ExpectedChunkLength(fileSize, i)
       <==> 0 <= b < fileSize && i == b / CHUNK_SIZE
  {
    var count := ExpectedChunkCount(fileSize);
    assert fileSize > 0 ==> (count - 1) * CHUNK_SIZE < fileSize <= count * CHUNK_SIZE;
    if 0 <= b < fileSize && i == b / CHUNK_SIZE {
      assert i * CHUNK_SIZE <= b < (i + 1) * CHUNK_SIZE;
    }
    if 0 <= i && i * CHUNK_SIZE <= b < i * CHUNK_SIZE + ExpectedChunkLength(fileSize, i) {
      assert b < (i + 1) * CHUNK_SIZE;
    }
  }

  function TotalLength(fileSize: nat, chunks: nat): int {
    if chunks == 0 then 0 else TotalLength(fileSize, chunks - 1) + ExpectedChunkLength(fileSize, chunks - 1)
  }

  lemma {:induction false} LengthsAddUp(fileSize: nat, chunks: nat)
    ensures TotalLength(fileSize, chunks) == Min(fileSize, chunks * CHUNK_SIZE)
  {
    if chunks > 0 {
      LengthsAddUp(fileSize, chunks - 1);
      assert chunks * CHUNK_SIZE == (chunks - 1) * CHUNK_SIZE + CHUNK_SIZE;
    }
  }

  /** The legal chunks, and only they, carry bytes, and together they carry the whole file. */
  lemma ChunksCarryTheFile(fileSize: nat, i: nat)
    ensures ExpectedChunkLength(fileSize, i) > 0 <==> i < ExpectedChunkCount(fileSize)
    ensures TotalLength(fileSize, ExpectedChunkCount(fileSize)) == fileSize
  {
    LengthsAddUp(fileSize, ExpectedChunkCount(fileSize));
    WindowsTileTheFile(fileSize, i, i * CHUNK_SIZE);
    assert i * CHUNK_SIZE / CHUNK_SIZE == i;
  }

  /** The numeric gates of validateMetaMessage. */
  predicate AcceptsGeometry(shortId: int, fileSize: int, totalChunks: int) {
    && 0 <= shortId < WORD
    && 0 <= fileSize <= MAX_FILE_SIZE
    && 0 <= totalChunks <= MAX_TOTAL_CHUNKS
    && totalChunks == ExpectedChunkCount(fileSize)
  }

  /** An accepted file sizes its bitmap by its bytes, one bit per 252 KiB rounded up to a byte, and
  stays clear of the counts whose byte length would wrap. */
  lemma AcceptedGeometryIsBounded(shortId: int, fileSize: int, totalChunks: int)
    requires AcceptsGeometry(shortId, fileSize, totalChunks)
    ensures totalChunks + 7 < WORD
    ensures 8 * CHUNK_SIZE * (ChunkBitmap.BitmapByteLength(totalChunks) - 1) < fileSize + CHUNK_SIZE
  {
    var bytes := ChunkBitmap.BitmapByteLength(totalChunks);
    assert fileSize > 0 ==> (totalChunks - 1) * CHUNK_SIZE < fileSize;
    assert totalChunks > 0 ==> 8 * (bytes - 1) <= totalChunks - 1;
  }

  // ----- big-endian words -----

  /** The four bytes setUint32 writes for `value >>> 0`. */
  function Uint32(value: int): (b: seq<byte>)
    ensures |b| == 4
  {
    var v := ChunkBitmap.Wrap(value);
    [v / 0x100_0000, v / 0x1_0000 % 0x100, v / 0x100 % 0x100, v % 0x100]
  }

  function ReadUint32(b: seq<byte>): (v: nat)
    requires |b| == 4
    ensures v < WORD
  {
    b[0] as int * 0x100_0000 + b[1] as int * 0x1_0000 + b[2] as int * 0x100 + b[3]
  }

  lemma ReadAfterWrite(value: int)
    ensures ReadUint32(Uint32(value)) == ChunkBitmap.Wrap(value)
  {
    var v := ChunkBitmap.Wrap(value);
    var w := v / 0x100;
    var x := w / 0x100;
    assert x == v / 0x1_0000 && x / 0x100 == v / 0x100_0000;
    assert v == w * 0x100 + v % 0x100 && w == x * 0x100 + w % 0x100 && x == x / 0x100 * 0x100 + x % 0x100;
  }

  lemma WriteAfterRead(b: seq<byte>)
    requires |b| == 4
    ensures Uint32(ReadUint32(b)) == b
  {
    var v := ReadUint32(b);
    assert v % WORD == v;
    assert v / 0x100 == b[0] as int * 0x1_0000 + b[1] as int * 0x100 + b[2];
    assert v / 0x1_0000 == b[0] as int * 0x100 + b[1];
  }

  method SetUint32(out: array<byte>, offset: nat, value: int)
    requires offset + 4 <= out.Length
    modifies out
    ensures out[..] == old(out[..offset]) + Uint32(value) + old(out[offset + 4..])
  {
    var v := ChunkBitmap.Wrap(value);
    out[offset] := v / 0x100_0000;
    out[offset + 1] := v / 0x1_0000 % 0x100;
    out[offset + 2] := v / 0x100 % 0x100;
    out[offset + 3] := v % 0x100;
  }

  /** Uint8Array.set. */
  method SetBytes(out: array<byte>, offset: nat, bytes: seq<byte>)
    requires offset + |bytes| <= out.Length
    modifies out
    ensures out[..] == old(out[..offset]) + bytes + old(out[offset + |bytes|..])
  {
    for i := 0 to |bytes|
      invariant forall k :: 0 <= k < i ==> out[offset + k] == bytes[k]
      invariant forall k :: 0 <= k < offset || offset + i <= k < out.Length ==> out[k] == old(out[k])
    {
      out[offset + i] := bytes[i];
    }
  }

  // ----- the chunk frame -----

  const CHUNK_FRAME_TAG: byte := 0x01
  const CHUNK_FRAME_HEADER_BYTES := 21
  const CHUNK_FRAME_IV_OFFSET := 9
  const CHUNK_FRAME_IV_LENGTH := 12

  /** A frame's bytes: tag, short id, index, IV region, ciphertext. */
  function Frame(shortId: int, index: int, ivRegion: seq<byte>, ciphertext: seq<byte>): seq<byte> {
    [CHUNK_FRAME_TAG] + Uint32(shortId) + Uint32(index) + ivRegion + ciphertext
  }

  datatype Decoded = Decoded(shortId: nat, index: nat, iv: seq<byte>, ciphertext: seq<byte>)

  function DecodeChunkFrame(buf: seq<byte>): Option<Decoded> {
    if |buf| < CHUNK_FRAME_HEADER_BYTES then None
    else if buf[0] != CHUNK_FRAME_TAG then None
    else Some(Decoded(ReadUint32(buf[1..5]), ReadUint32(buf[5..9]),
                      buf[CHUNK_FRAME_IV_OFFSET..CHUNK_FRAME_IV_OFFSET + CHUNK_FRAME_IV_LENGTH],
                      buf[CHUNK_FRAME_HEADER_BYTES..]))
  }

  function Zeros(n: nat): (z: seq<byte>)
    ensures |z| == n
  {
    seq(n, _ => 0)
  }

  /** What lands in the twelve IV bytes: a short IV leaves zeros, the tail of a long one is overwritten. */
  function IvRegion(iv: seq<byte>): (r: seq<byte>)
    ensures |r| == CHUNK_FRAME_IV_LENGTH
  {
    if |iv| <= CHUNK_FRAME_IV_LENGTH then iv + Zeros(CHUNK_FRAME_IV_LENGTH - |iv|) else iv[..CHUNK_FRAME_IV_LENGTH]
  }

  // Writing the ciphertext last overwrites the tail of an IV that is too long.
  lemma IvThenCiphertext(head: seq<byte>, iv: seq<byte>, ciphertext: seq<byte>)
    requires |head| == CHUNK_FRAME_IV_OFFSET && |iv| <= CHUNK_FRAME_IV_LENGTH + |ciphertext|
    ensures var out := head + (iv + Zeros(CHUNK_FRAME_IV_LENGTH + |ciphertext| - |iv|));
            out[..CHUNK_FRAME_HEADER_BYTES] + ciphertext == head + IvRegion(iv) + ciphertext
  {
    var body := iv + Zeros(CHUNK_FRAME_IV_LENGTH + |ciphertext| - |iv|);
    assert body[..CHUNK_FRAME_IV_LENGTH] == IvRegion(iv);
    assert (head + body)[..CHUNK_FRAME_HEADER_BYTES] == head + body[..CHUNK_FRAME_IV_LENGTH];
  }

  // The header as it is written, before the IV.
  method WriteHeader(out: array<byte>, shortId: int, index: int)
    requires out.Length >= CHUNK_FRAME_HEADER_BYTES && out[..] == Zeros(out.Length)
    modifies out
    ensures out[..] == [CHUNK_FRAME_TAG] + Uint32(shortId) + Uint32(index) + Zeros(out.Length - CHUNK_FRAME_IV_OFFSET)
  {
    out[0] := CHUNK_FRAME_TAG;
    assert out[..] == [CHUNK_FRAME_TAG] + Zeros(out.Length - 1);
    SetUint32(out, 1, shortId);
    assert out[..] == [CHUNK_FRAME_TAG] + Uint32(shortId) + Zeros(out.Length - 5);
    SetUint32(out, 5, index);
  }

  /** None stands for the RangeError of an IV that does not fit the buffer. */
  method EncodeChunkFrame(shortId: int, index: int, iv: seq<byte>, ciphertext: seq<byte>)
    returns (frame: Option<array<byte>>)
    ensures frame.None? <==> CHUNK_FRAME_IV_OFFSET + |iv| > CHUNK_FRAME_HEADER_BYTES + |ciphertext|
    ensures frame.Some? ==> fresh(frame.value) && frame.value[..] == Frame(shortId, index, IvRegion(iv), ciphertext)
  {
    var out := new byte[CHUNK_FRAME_HEADER_BYTES + |ciphertext|](_ => 0);
    assert out[..] == Zeros(out.Length);
    WriteHeader(out, shortId, index);
    ghost var head := [CHUNK_FRAME_TAG] + Uint32(shortId) + Uint32(index);
    if CHUNK_FRAME_IV_OFFSET + |iv| > out.Length {
      return None;
    }
    SetBytes(out, CHUNK_FRAME_IV_OFFSET, iv);
    assert out[..] == head + (iv + Zeros(out.Length - CHUNK_FRAME_IV_OFFSET - |iv|));
    SetBytes(out, CHUNK_FRAME_HEADER_BYTES, ciphertext);
    IvThenCiphertext(head, iv, ciphertext);
    return Some(out);
  }

  lemma FrameFields(shortId: int, index: int, ivRegion: seq<byte>, ciphertext: seq<byte>)
    requires |ivRegion| == CHUNK_FRAME_IV_LENGTH
    ensures var f := Frame(shortId, index, ivRegion, ciphertext);
            && |f| == CHUNK_FRAME_HEADER_BYTES + |ciphertext| && f[0] == CHUNK_FRAME_TAG
            && f[1..5] == Uint32(shortId) && f[5..9] == Uint32(index) && f[9..21] == ivRegion && f[21..] == ciphertext
  {
  }

  /** Decoding inverts encoding exactly when both ids are 32-bit and the IV has its twelve bytes. */
  lemma DecodeInvertsEncode(shortId: int, index: int, iv: seq<byte>, ciphertext: seq<byte>)
    ensures DecodeChunkFrame(Frame(shortId, index, IvRegion(iv), ciphertext))
         == Some(Decoded(ChunkBitmap.Wrap(shortId), ChunkBitmap.Wrap(index), IvRegion(iv), ciphertext))
    ensures (0 <= shortId < WORD && 0 <= index < WORD && |iv| == CHUNK_FRAME_IV_LENGTH)
       <==> (0 <= shortId && 0 <= index
             && DecodeChunkFrame(Frame(shortId, index, IvRegion(iv), ciphertext))
                == Some(Decoded(shortId, index, iv, ciphertext)))
  {
    FrameFields(shortId, index, IvRegion(iv), ciphertext);
    ReadAfterWrite(shortId);
    ReadAfterWrite(index);
    assert |iv| == CHUNK_FRAME_IV_LENGTH ==> IvRegion(iv) == iv;
  }

  /** Every accepted buffer is the encoding of what it decodes to. */
  lemma EncodeInvertsDecode(buf: seq<byte>)
    requires DecodeChunkFrame(buf).Some?
    ensures var d := DecodeChunkFrame(buf).value;
            Frame(d.shortId, d.index, IvRegion(d.iv), d.ciphertext) == buf
  {
    WriteAfterRead(buf[1..5]);
    WriteAfterRead(buf[5..9]);
    assert buf == [buf[0]] + buf[1..5] + buf[5..9] + buf[9..21] + buf[21..];
  }

  // ----- additional authenticated data -----

  datatype AadFields = AadFields(version: int, transferId: seq<byte>, shortId: int, index: int, plaintextLength: int)

  function Aad(f: AadFields): seq<byte> {
    Uint32(f.version) + Uint32(|f.transferId|) + f.transferId + Uint32(f.shortId) + Uint32(f.index)
      + Uint32(f.plaintextLength)
  }

  /** The layout is written through one moving offset. */
  method ChunkAad(f: AadFields) returns (out: array<byte>)
    ensures fresh(out) && out[..] == Aad(f)
  {
    out := new byte[4 + 4 + |f.transferId| + 4 + 4 + 4](_ => 0);
    var o := 0;
    SetUint32(out, o, f.version);
    o := o + 4;
    SetUint32(out, o, |f.transferId|);
    o := o + 4;
    assert out[..o] == Uint32(f.version) + Uint32(|f.transferId|);
    SetBytes(out, o, f.transferId);
    o := o + |f.transferId|;
    assert out[..o] == Uint32(f.version) + Uint32(|f.transferId|) + f.transferId;
    ghost var head := out[..o];
    SetUint32(out, o, f.shortId);
    o := o + 4;
    assert out[..o] == head + Uint32(f.shortId);
    SetUint32(out, o, f.index);
    o := o + 4;
    assert out[..o] == head + Uint32(f.shortId) + Uint32(f.index);
    SetUint32(out, o, f.plaintextLength);
    assert out[..] == head + Uint32(f.shortId) + Uint32(f.index) + Uint32(f.plaintextLength);
  }

  lemma WordsEqual(x: int, y: int)
    ensures Uint32(x) == Uint32(y) <==> ChunkBitmap.Wrap(x) == ChunkBitmap.Wrap(y)
  {
    ReadAfterWrite(x);
    ReadAfterWrite(y);
  }

  /** Equal bytes name equal fields: the layout is injective on all five fields at once, each number
  taken modulo 2^32. */
  lemma AadIsInjective(f: AadFields, g: AadFields)
    requires |f.transferId| < WORD && |g.transferId| < WORD
    ensures Aad(f) == Aad(g)
       <==> (&& f.transferId == g.transferId
             && ChunkBitmap.Wrap(f.version) == ChunkBitmap.Wrap(g.version)
             && ChunkBitmap.Wrap(f.shortId) == ChunkBitmap.Wrap(g.shortId)
             && ChunkBitmap.Wrap(f.index) == ChunkBitmap.Wrap(g.index)
             && ChunkBitmap.Wrap(f.plaintextLength) == ChunkBitmap.Wrap(g.plaintextLength))
  {
    WordsEqual(f.version, g.version);
    WordsEqual(|f.transferId|, |g.transferId|);
    WordsEqual(f.shortId, g.shortId);
    WordsEqual(f.index, g.index);
    WordsEqual(f.plaintextLength, g.plaintextLength);
    AadParts(f);
    AadParts(g);
  }

  lemma AadParts(f: AadFields)
    ensures var a, n := Aad(f), |f.transferId|;
            && |a| == n + 20 && a[0..4] == Uint32(f.version) && a[4..8] == Uint32(n) && a[8..8 + n] == f.transferId
            && a[8 + n..12 + n] == Uint32(f.shortId) && a[12 + n..16 + n] == Uint32(f.index)
            && a[16 + n..20 + n] == Uint32(f.plaintextLength)
  {
  }

  // ----- initialisation vectors -----

  /** Eight prefix bytes, zero-filled when the prefix is shorter, then the index. */
  function ChunkIv(prefix: seq<byte>, index: int): seq<byte> {
    (if |prefix| >= 8 then prefix[..8] else prefix + Zeros(8 - |prefix|)) + Uint32(index)
  }

  method AssembleChunkIv(domainPrefix: seq<byte>, index: int) returns (iv: array<byte>)
    ensures fresh(iv) && iv[..] == ChunkIv(domainPrefix, index)
  {
    iv := new byte[12](_ => 0);
    var subarray := if |domainPrefix| >= 8 then domainPrefix[..8] else domainPrefix;
    SetBytes(iv, 0, subarray);
    assert iv[..8] == subarray + Zeros(8 - |subarray|);
    SetUint32(iv, 8, index);
  }

  /** Section 8.2.1 of NIST SP 800-38D: under one key, two chunks share an IV only if they share both
  the transfer's prefix and the index; so with one prefix per transfer and 32-bit indexes no IV repeats. */
  lemma IvsAreUnique(p: seq<byte>, i: int, q: seq<byte>, j: int)
    requires |p| >= 8 && |q| >= 8
    ensures ChunkIv(p, i) == ChunkIv(q, j) <==> p[..8] == q[..8] && ChunkBitmap.Wrap(i) == ChunkBitmap.Wrap(j)
  {
    WordsEqual(i, j);
    assert ChunkIv(p, i)[..8] == p[..8] && ChunkIv(q, j)[..8] == q[..8];
    assert ChunkIv(p, i)[8..] == Uint32(i) && ChunkIv(q, j)[8..] == Uint32(j);
  }

  // ----- version negotiation -----

  const PROTOCOL_VERSION := 3
  const LEGACY_PROTOCOL_VERSION := 1

  /** An announced version: an integer, or anything else. */
  datatype Announced = Version(v: int) | Malformed

  function Believed(raw: Announced): int {
    if raw.Version? && 1 <= raw.v <= 255 then raw.v else LEGACY_PROTOCOL_VERSION
  }

  function Lookup(versions: map<string, int>, peer: string): int {
    if peer in versions then versions[peer] else LEGACY_PROTOCOL_VERSION
  }

  function Announce(versions: map<string, int>, peer: string, raw: Announced): map<string, int> {
    versions[peer := Max(Lookup(versions, peer), Believed(raw))]
  }

  /** No peer, or an empty one, forgets them all. */
  predicate Clears(which: Option<string>, peer: string) {
    which.None? || which.value == "" || which.value == peer
  }

  function Clear(versions: map<string, int>, which: Option<string>): map<string, int> {
    map peer | peer in versions && !Clears(which, peer) :: versions[peer]
  }

  /** What both sides can speak. */
  function Agreed(versions: map<string, int>, peer: string): int {
    Min(PROTOCOL_VERSION, Lookup(versions, peer))
  }

  class PeerVersions {
    var versions: map<string, int>

    constructor ()
      ensures versions == map[]
    {
      versions := map[];
    }

    function Get(peer: string): int
      reads this
    {
      if peer in versions then versions[peer] else LEGACY_PROTOCOL_VERSION
    }

    method Set(peer: string, raw: Announced) returns (next: int)
      modifies this
      ensures versions == Announce(old(versions), peer, raw)
      ensures next == Get(peer)
    {
      var v := if raw.Version? && 1 <= raw.v <= 255 then raw.v else LEGACY_PROTOCOL_VERSION;
      next := Max(Get(peer), v);
      versions := versions[peer := next];
    }

    method ClearVersion(which: Option<string>)
      modifies this
      ensures versions == Clear(old(versions), which)
    {
      if which.Some? && which.value != "" {
        versions := versions - {which.value};
      } else {
        versions := map[];
      }
      assert versions == Clear(old(versions), which);
    }

    function Negotiated(peer: string): (v: int)
      reads this
      ensures v == Agreed(versions, peer)
    {
      Min(PROTOCOL_VERSION, Get(peer))
    }
  }

  datatype VersionEvent = Announces(peer: string, raw: Announced) | Forgets(which: Option<string>)

  function Apply(versions: map<string, int>, e: VersionEvent): map<string, int> {
    match e
    case Announces(peer, raw) => Announce(versions, peer, raw)
    case Forgets(which) => Clear(versions, which)
  }

  /** The table after a run of calls of Set and ClearVersion. */
  function Replay(versions: map<string, int>, events: seq<VersionEvent>): map<string, int> {
    if events == [] then versions else Apply(Replay(versions, events[..|events| - 1]), events[|events| - 1])
  }

  predicate ForgetsPeer(e: VersionEvent, peer: string) {
    e.Forgets? && Clears(e.which, peer)
  }

  /** Between two clears a peer's version never goes down, whatever is announced and whoever else is
  cleared; and what is negotiated with it does not either. */
  lemma {:induction false} NeverDowngraded(versions: map<string, int>, events: seq<VersionEvent>, peer: string)
    requires forall k :: 0 <= k < |events| ==> !ForgetsPeer(events[k], peer)
    ensures Lookup(versions, peer) <= Lookup(Replay(versions, events), peer)
    ensures Agreed(versions, peer) <= Agreed(Replay(versions, events), peer)
  {
    if events != [] {
      NeverDowngraded(versions, events[..|events| - 1], peer);
      assert !ForgetsPeer(events[|events| - 1], peer);
    }
  }

  /** A call that is a valid announcement of `v` or more by `peer`, not cleared since. */
  predicate Proves(events: seq<VersionEvent>, k: nat, peer: string, v: int) {
    && k < |events| && events[k].Announces? && events[k].peer == peer && Believed(events[k].raw) >= v
    && forall j :: k < j < |events| ==> !ForgetsPeer(events[j], peer)
  }

  lemma ProvesLonger(events: seq<VersionEvent>, e: VersionEvent, k: nat, peer: string, v: int)
    requires k < |events|
    ensures Proves(events + [e], k, peer, v) <==> Proves(events, k, peer, v) && !ForgetsPeer(e, peer)
  {
    var longer := events + [e];
    assert longer[|events|] == e && forall j :: 0 <= j < |events| ==> longer[j] == events[j];
  }

  /** Over every run the recorded version is exactly the best one the peer announced since it was last
  cleared: no malformed or older announcement and no clearing of another peer changes that. */
  lemma {:induction false} BestSinceCleared(events: seq<VersionEvent>, peer: string, v: int)
    requires LEGACY_PROTOCOL_VERSION < v
    ensures Lookup(Replay(map[], events), peer) >= v <==> exists k: nat :: Proves(events, k, peer, v)
  {
    if events != [] {
      var init, last := events[..|events| - 1], events[|events| - 1];
      BestSinceCleared(init, peer, v);
      assert events == init + [last];
      forall k: nat | k < |init| ensures Proves(events, k, peer, v)
        <==> Proves(init, k, peer, v) && !ForgetsPeer(last, peer) {
        ProvesLonger(init, last, k, peer, v);
      }
      assert Proves(events, |init|, peer, v) <==> last.Announces? && last.peer == peer && Believed(last.raw) >= v;
      BestStep(events, peer, v);
    }
  }

  lemma BestStep(events: seq<VersionEvent>, peer: string, v: int)
    requires events != [] && LEGACY_PROTOCOL_VERSION < v
    ensures var before := Replay(map[], events[..|events| - 1]);
            var e := events[|events| - 1];
            Lookup(Replay(map[], events), peer) >= v <==>
              || (Lookup(before, peer) >= v && !ForgetsPeer(e, peer))
              || (e.Announces? && e.peer == peer && Believed(e.raw) >= v)
  {
  }
}
