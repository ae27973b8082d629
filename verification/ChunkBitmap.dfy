/** The bits of client/src/lib/chunk-bitmap.ts: a byte buffer as the set of chunks it marks. */
module ChunkBitmap {

  // JavaScript shifts see their operand modulo 2^32.
  const WORD := 0x1_0000_0000
  const MAX_RANGE_COUNT := 4096

  function Wrap(x: int): nat {
    x % WORD
  }

  // ----- bits -----

  function Mask(k: nat): bv8
    requires k < 8
  {
    1 << k
  }

  predicate Bit(b: bv8, k: nat)
    requires k < 8
  {
    b & Mask(k) != 0
  }

  predicate HasBit(buf: seq<bv8>, i: int) {
    0 <= i < 8 * |buf| && Bit(buf[i / 8], i % 8)
  }

  /** The indexes whose bit is set. */
  function Bits(buf: seq<bv8>): set<int> {
    set i | 0 <= i < 8 * |buf| && HasBit(buf, i)
  }

  function BitmapByteLength(totalChunks: int): (bytes: nat)
    ensures 0 < totalChunks && totalChunks + 7 < WORD ==> 8 * (bytes - 1) < totalChunks <= 8 * bytes
  {
    if totalChunks <= 0 then 0 else Wrap(totalChunks + 7) / 8
  }

  predicate BitmapHas(buf: seq<bv8>, idx: int): (has: bool)
    ensures has <==> 0 <= idx && Wrap(idx) in Bits(buf)
  {
    WrapKeepsLowBits(idx);
    if idx < 0 then false
    else
      var byte := Wrap(idx) / 8;
      if byte >= |buf| then false else Bit(buf[byte], idx % 8)
  }

  lemma WrapKeepsLowBits(x: int)
    ensures Wrap(x) % 8 == x % 8
  {
    assert x == WORD * (x / WORD) + Wrap(x);
    assert x == 8 * (WORD / 8 * (x / WORD)) + Wrap(x);
  }

  lemma MaskTable(k: nat)
    requires k < 8
    ensures Mask(k) == if k == 0 then 1 else if k == 1 then 2 else if k == 2 then 4 else if k == 3 then 8
                       else if k == 4 then 16 else if k == 5 then 32 else if k == 6 then 64 else 128
  {
  }

  lemma OrTouchesOneBit(b: bv8, k: nat, j: nat)
    requires k < 8 && j < 8
    ensures Bit(b | Mask(k), j) <==> Bit(b, j) || j == k
  {
    MaskTable(k);
    MaskTable(j);
  }

  method NewBitmap(totalChunks: int) returns (buf: array<bv8>)
    ensures fresh(buf) && buf.Length == BitmapByteLength(totalChunks) && Bits(buf[..]) == {}
  {
    buf := new bv8[BitmapByteLength(totalChunks)](_ => 0);
    forall i | 0 <= i < 8 * buf.Length ensures !HasBit(buf[..], i) {
      MaskTable(i % 8);
    }
  }

  /** Sets one bit and says whether it was clear. An index is taken modulo 2^32, and one that is
  negative or past the end of the buffer changes nothing. */
  method BitmapSet(buf: array<bv8>, idx: int) returns (flipped: bool)
    modifies buf
    ensures Bits(buf[..]) == old(Bits(buf[..])) + (if 0 <= idx && Wrap(idx) < 8 * buf.Length then {Wrap(idx)} else {})
    ensures flipped <==> 0 <= idx && Wrap(idx) < 8 * buf.Length && Wrap(idx) !in old(Bits(buf[..]))
  {
    if idx < 0 {
      return false;
    }
    var byte := Wrap(idx) / 8;
    if byte >= buf.Length {
      return false;
    }
    var mask := Mask(idx % 8);
    WrapKeepsLowBits(idx);
    ghost var before := buf[..];
    if buf[byte] & mask != 0 {
      assert HasBit(before, Wrap(idx));
      assert Bits(before) == Bits(before) + {Wrap(idx)};
      return false;
    }
    assert !HasBit(before, Wrap(idx));
    buf[byte] := buf[byte] | mask;
    SetsOneBit(before, buf[..], Wrap(idx));
    return true;
  }

  lemma SetsOneBit(before: seq<bv8>, after: seq<bv8>, idx: nat)
    requires idx < 8 * |before| && after == before[idx / 8 := before[idx / 8] | Mask(idx % 8)]
    ensures Bits(after) == Bits(before) + {idx}
  {
    forall i ensures HasBit(after, i) <==> HasBit(before, i) || i == idx {
      if 0 <= i < 8 * |before| {
        OrTouchesOneBit(before[idx / 8], idx % 8, i % 8);
      }
    }
  }

  // ----- counting -----

  function One(c: bool): nat {
    if c then 1 else 0
  }

  function BitCount(b: bv8): nat {
    One(Bit(b, 0)) + One(Bit(b, 1)) + One(Bit(b, 2)) + One(Bit(b, 3))
    + One(Bit(b, 4)) + One(Bit(b, 5)) + One(Bit(b, 6)) + One(Bit(b, 7))
  }

  /** The parallel bit count adds neighbours, then pairs, then nibbles. */
  function SwarCount(b: bv8): (n: bv8)
    ensures n as nat == BitCount(b)
  {
    var pairs := b - ((b >> 1) & 0x55);
    var nibbles := (pairs & 0x33) + ((pairs >> 2) & 0x33);
    (nibbles + (nibbles >> 4)) & 0x0f
  }

  function BitsUpTo(b: bv8, base: nat, k: nat): (s: set<int>)
    requires k <= 8
    ensures forall i :: i in s <==> base <= i < base + k && Bit(b, i - base)
  {
    if k == 0 then {}
    else if Bit(b, k - 1) then BitsUpTo(b, base, k - 1) + {base + k - 1}
    else BitsUpTo(b, base, k - 1)
  }

  function CountUpTo(b: bv8, k: nat): nat
    requires k <= 8
  {
    if k == 0 then 0 else CountUpTo(b, k - 1) + One(Bit(b, k - 1))
  }

  lemma {:induction false} BitsUpToCount(b: bv8, base: nat, k: nat)
    requires k <= 8
    ensures |BitsUpTo(b, base, k)| == CountUpTo(b, k)
  {
    if k > 0 {
      BitsUpToCount(b, base, k - 1);
    }
  }

  lemma CountsAgree(b: bv8)
    ensures CountUpTo(b, 8) == BitCount(b)
  {
    assert CountUpTo(b, 1) == One(Bit(b, 0));
    assert CountUpTo(b, 3) == CountUpTo(b, 1) + One(Bit(b, 1)) + One(Bit(b, 2));
    assert CountUpTo(b, 5) == CountUpTo(b, 3) + One(Bit(b, 3)) + One(Bit(b, 4));
    assert CountUpTo(b, 7) == CountUpTo(b, 5) + One(Bit(b, 5)) + One(Bit(b, 6));
  }

  lemma BitsAppend(buf: seq<bv8>, b: bv8)
    ensures Bits(buf + [b]) == Bits(buf) + BitsUpTo(b, 8 * |buf|, 8)
    ensures Bits(buf) !! BitsUpTo(b, 8 * |buf|, 8)
  {
    forall i ensures HasBit(buf + [b], i) <==> HasBit(buf, i) || i in BitsUpTo(b, 8 * |buf|, 8) {
      if 8 * |buf| <= i < 8 * |buf| + 8 {
        assert i / 8 == |buf| && i % 8 == i - 8 * |buf|;
      }
    }
  }

  method BitmapPopcount(buf: array<bv8>) returns (n: nat)
    ensures n == |Bits(buf[..])|
  {
    n := 0;
    for i := 0 to buf.Length
      invariant n == |Bits(buf[..i])|
    {
      assert buf[..i + 1] == buf[..i] + [buf[i]];
      BitsAppend(buf[..i], buf[i]);
      BitsUpToCount(buf[i], 8 * i, 8);
      CountsAgree(buf[i]);
      n := n + SwarCount(buf[i]) as nat;
    }
    assert buf[..buf.Length] == buf[..];
  }

  /** One received chunk: the running counter stays the number of set bits, which is also what the
  one-shot population count would give. */
  method MarkReceived(received: array<bv8>, receivedCount: nat, index: int) returns (count: nat)
    requires receivedCount == |Bits(received[..])|
    modifies received
    ensures count == |Bits(received[..])|
    ensures Bits(received[..]) == old(Bits(received[..])) + Landed({index}, received.Length)
  {
    ghost var before := Bits(received[..]);
    var flipped := BitmapSet(received, index);
    count := if flipped then receivedCount + 1 else receivedCount;
    assert flipped ==> Bits(received[..]) == before + {Wrap(index)} && Wrap(index) !in before;
    assert !flipped ==> Bits(received[..]) == before;
  }

  /** What a set of indexes sets in a buffer of `bytes` bytes. */
  function Landed(indexes: set<int>, bytes: nat): set<int> {
    set i | i in indexes && 0 <= i && Wrap(i) < 8 * bytes :: Wrap(i)
  }

  function Members(s: seq<int>): set<int> {
    set i | i in s
  }

  method BitmapFromIndexes(indexes: seq<int>, totalChunks: int) returns (buf: array<bv8>)
    ensures fresh(buf) && buf.Length == BitmapByteLength(totalChunks)
    ensures Bits(buf[..]) == Landed(Members(indexes), buf.Length)
  {
    buf := NewBitmap(totalChunks);
    for k := 0 to |indexes|
      invariant fresh(buf) && buf.Length == BitmapByteLength(totalChunks)
      invariant Bits(buf[..]) == Landed(Members(indexes[..k]), buf.Length)
    {
      var flipped := BitmapSet(buf, indexes[k]);
      assert Members(indexes[..k + 1]) == Members(indexes[..k]) + {indexes[k]};
    }
    assert indexes[..|indexes|] == indexes;
  }
}
