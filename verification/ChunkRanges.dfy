/** The run-length ranges of client/src/lib/chunk-bitmap.ts.

Two encoders (a bit scan and a sorted-set scan) and one normaliser produce ranges. All three are
proved equal to `Runs`, the only ascending, gap-separated list that covers a given set. */
module ChunkRanges {

  import opened Common
  import opened ChunkBitmap

  datatype Range = Range(start: int, length: int) {
    function End(): int {
      start + length
    }
  }

  predicate Covers(ranges: seq<Range>, i: int) {
    ranges != []
    && var last := ranges[|ranges| - 1];
       last.start <= i < last.End() || Covers(ranges[..|ranges| - 1], i)
  }

  /** Non-empty ranges inside [0, n), each ending before, and not touching, the next. */
  predicate Canonical(ranges: seq<Range>, n: int) {
    ranges == []
    || var last := ranges[|ranges| - 1];
       0 <= last.start && 0 < last.length && last.End() <= n && Canonical(ranges[..|ranges| - 1], last.start - 1)
  }

  /** The maximal runs of `s` below `n`. */
  function Runs(s: set<int>, n: nat): seq<Range> {
    if n == 0 then [] else Extend(Runs(s, n - 1), n - 1, n - 1 in s)
  }

  /** One more chunk, `i`, after the runs below it. */
  function Extend(runs: seq<Range>, i: nat, present: bool): seq<Range> {
    if !present then runs
    else if runs != [] && runs[|runs| - 1].End() == i
    then runs[..|runs| - 1] + [Range(runs[|runs| - 1].start, runs[|runs| - 1].length + 1)]
    else runs + [Range(i, 1)]
  }

  lemma {:induction false} CanonicalStaysBelow(ranges: seq<Range>, n: int, i: int)
    requires Canonical(ranges, n) && Covers(ranges, i)
    ensures 0 <= i < n
  {
    var last := ranges[|ranges| - 1];
    if !(last.start <= i < last.End()) {
      CanonicalStaysBelow(ranges[..|ranges| - 1], last.start - 1, i);
    }
  }

  lemma CanonicalAppend(ranges: seq<Range>, r: Range, n: int)
    requires Canonical(ranges, r.start - 1) && 0 <= r.start && 0 < r.length && r.End() <= n
    ensures Canonical(ranges + [r], n)
  {
    assert (ranges + [r])[..|ranges|] == ranges;
  }

  lemma CoversAppend(ranges: seq<Range>, r: Range, i: int)
    ensures Covers(ranges + [r], i) <==> (Covers(ranges, i) || r.start <= i < r.End())
  {
    assert (ranges + [r])[..|ranges|] == ranges;
  }

  /** `ranges` covers the members of `s` below `n`, and nothing else. */
  ghost predicate CoversExactly(ranges: seq<Range>, s: set<int>, n: int) {
    forall i :: Covers(ranges, i) <==> 0 <= i < n && i in s
  }

  lemma CoversExtended(runs: seq<Range>, i: nat, present: bool, j: int)
    requires Canonical(runs, i)
    ensures Covers(Extend(runs, i, present), j) <==> (Covers(runs, j) || (present && j == i))
  {
    if present && runs != [] && runs[|runs| - 1].End() == i {
      var init, grown := runs[..|runs| - 1], Range(runs[|runs| - 1].start, runs[|runs| - 1].length + 1);
      assert (init + [grown])[..|init|] == init;
    } else if present {
      assert (runs + [Range(i, 1)])[..|runs|] == runs;
    }
  }

  lemma ExtendIsCanonical(runs: seq<Range>, s: set<int>, i: nat)
    requires Canonical(runs, i) && CoversExactly(runs, s, i)
    ensures Canonical(Extend(runs, i, i in s), i + 1) && CoversExactly(Extend(runs, i, i in s), s, i + 1)
  {
    if i in s {
      if runs != [] && runs[|runs| - 1].End() == i {
        CanonicalAppend(runs[..|runs| - 1], Range(runs[|runs| - 1].start, runs[|runs| - 1].length + 1), i + 1);
      } else {
        CanonicalAppend(runs, Range(i, 1), i + 1);
      }
    }
    forall j ensures Covers(Extend(runs, i, i in s), j) <==> 0 <= j < i + 1 && j in s {
      CoversExtended(runs, i, i in s, j);
    }
  }

  /** `Runs` is canonical and covers exactly the members of `s` below `n`. */
  lemma {:induction false} RunsAreCanonical(s: set<int>, n: nat)
    ensures Canonical(Runs(s, n), n) && CoversExactly(Runs(s, n), s, n)
  {
    if n > 0 {
      RunsAreCanonical(s, n - 1);
      ExtendIsCanonical(Runs(s, n - 1), s, n - 1);
    }
  }

  lemma LastIsMaximal(a: seq<Range>, b: seq<Range>, n: int)
    requires Canonical(a, n) && Canonical(b, n) && a != [] && (forall i :: Covers(a, i) ==> Covers(b, i))
    ensures b != [] && a[|a| - 1].End() <= b[|b| - 1].End()
  {
    var i := a[|a| - 1].End() - 1;
    assert Covers(a, i);
    var last := b[|b| - 1];
    CanonicalStaysBelow(b, last.End(), i);
  }

  lemma LastStartsFirst(a: seq<Range>, b: seq<Range>, n: int)
    requires Canonical(a, n) && Canonical(b, n) && a != [] && b != [] && a[|a| - 1].End() == b[|b| - 1].End()
    requires forall i :: Covers(a, i) ==> Covers(b, i)
    ensures b[|b| - 1].start <= a[|a| - 1].start
  {
    var i := b[|b| - 1].start - 1;
    if a[|a| - 1].start <= i {
      assert Covers(a, i);
      CanonicalStaysBelow(b[..|b| - 1], i, i);
    }
  }

  /** Uniqueness: canonical lists that cover the same indexes are equal. */
  lemma {:induction false} CanonicalIsUnique(a: seq<Range>, b: seq<Range>, n: int)
    requires Canonical(a, n) && Canonical(b, n)
    requires forall i :: Covers(a, i) <==> Covers(b, i)
    ensures a == b
  {
    if a != [] {
      LastIsMaximal(a, b, n);
    }
    if b != [] {
      LastIsMaximal(b, a, n);
      LastStartsFirst(a, b, n);
      LastStartsFirst(b, a, n);
      var initA, initB, last := a[..|a| - 1], b[..|b| - 1], a[|a| - 1];
      forall i ensures Covers(initA, i) <==> Covers(initB, i) {
        if Covers(initA, i) {
          CanonicalStaysBelow(initA, last.start - 1, i);
          assert Covers(a, i);
        }
        if Covers(initB, i) {
          CanonicalStaysBelow(initB, last.start - 1, i);
          assert Covers(b, i);
        }
      }
      CanonicalIsUnique(initA, initB, last.start - 1);
      assert a == initA + [last] && b == initB + [last];
    }
  }

  lemma RunsOf(ranges: seq<Range>, s: set<int>, n: nat)
    requires Canonical(ranges, n) && CoversExactly(ranges, s, n)
    ensures ranges == Runs(s, n)
  {
    RunsAreCanonical(s, n);
    CanonicalIsUnique(ranges, Runs(s, n), n);
  }

  lemma {:induction false} RunsSkipGaps(s: set<int>, from: nat, to: nat)
    requires from <= to && forall i :: from <= i < to ==> i !in s
    ensures Runs(s, from) == Runs(s, to)
  {
    if from < to {
      RunsSkipGaps(s, from, to - 1);
    }
  }

  /** The ranges of a bitmap, as every encoder must produce them. */
  function BitmapRanges(buf: seq<bv8>, totalChunks: int): seq<Range> {
    Runs(Bits(buf), Max(0, Min(totalChunks, 8 * |buf|)))
  }

  method BitmapToRanges(buf: array<bv8>, totalChunks: int) returns (ranges: seq<Range>)
    ensures ranges == BitmapRanges(buf[..], totalChunks)
  {
    ranges := [];
    var max := Min(totalChunks, buf.Length * 8);
    var runStart := -1;
    var idx := 0;
    while idx < max
      invariant 0 <= idx <= Max(0, max) && -1 <= runStart < idx
      invariant runStart < 0 ==> ranges == Runs(Bits(buf[..]), idx) && (idx > 0 ==> idx - 1 !in Bits(buf[..]))
      invariant runStart >= 0 ==> ranges + [Range(runStart, idx - runStart)] == Runs(Bits(buf[..]), idx)
    {
      var set_ := Bit(buf[idx / 8], idx % 8);
      assert set_ <==> idx in Bits(buf[..]);
      RunsAreCanonical(Bits(buf[..]), idx);
      ghost var runs := Runs(Bits(buf[..]), idx);
      if runStart < 0 && runs != [] && runs[|runs| - 1].End() == idx {
        assert Covers(runs, idx - 1);
        assert false;
      }
      if set_ && runStart < 0 {
        runStart := idx;
      } else if !set_ && runStart >= 0 {
        ranges := ranges + [Range(runStart, idx - runStart)];
        runStart := -1;
      }
      idx := idx + 1;
    }
    if runStart >= 0 {
      ranges := ranges + [Range(runStart, max - runStart)];
    }
  }

  method BitmapToIndexes(buf: array<bv8>, totalChunks: int) returns (out: seq<int>)
    ensures forall j, k :: 0 <= j < k < |out| ==> out[j] < out[k]
    ensures forall i :: i in out <==> i in Bits(buf[..]) && i < totalChunks
  {
    out := [];
    var max := Min(totalChunks, buf.Length * 8);
    for byte := 0 to buf.Length
      invariant forall j, k :: 0 <= j < k < |out| ==> out[j] < out[k]
      invariant forall i :: i in out <==> i in Bits(buf[..]) && i < Min(max, 8 * byte)
    {
      var v, base := buf[byte], 8 * byte;
      if v == 0 {
        forall bit: nat | bit < 8 ensures !Bit(0, bit) {
          MaskTable(bit);
        }
        assert forall i :: base <= i < base + 8 ==> i !in Bits(buf[..]);
        continue;
      }
      var bit := 0;
      while bit < 8
        invariant 0 <= bit <= 8
        invariant forall j, k :: 0 <= j < k < |out| ==> out[j] < out[k]
        invariant forall i :: i in out <==> i in Bits(buf[..]) && i < Min(max, base + bit)
      {
        if base + bit >= max {
          break;
        }
        assert Bit(v, bit) <==> base + bit in Bits(buf[..]);
        if Bit(v, bit) {
          assert forall j :: 0 <= j < |out| ==> out[j] in out;
          out := out + [base + bit];
        }
        bit := bit + 1;
      }
    }
  }

  // ----- untrusted ranges -----

  /** One element of an untrusted list: a two-element array of numbers, or anything else. */
  datatype RawRange = Pair(start: int, length: int) | Junk

  datatype RawRanges = NotAnArray | Elements(items: seq<RawRange>)

  predicate SafeInteger(x: int) {
    -MAX_SAFE_INTEGER <= x <= MAX_SAFE_INTEGER
  }

  predicate Usable(item: RawRange, totalChunks: int) {
    && item.Pair? && SafeInteger(item.start) && SafeInteger(item.length)
    && 0 <= item.start < totalChunks && 0 < item.length
  }

  predicate Asks(item: RawRange, totalChunks: int, i: int) {
    Usable(item, totalChunks) && item.start <= i < item.start + item.length && i < totalChunks
  }

  predicate AskedFor(items: seq<RawRange>, totalChunks: int, i: int) {
    exists k :: 0 <= k < |items| && Asks(items[k], totalChunks, i)
  }

  /** The chunks below `totalChunks` that some usable element asks for. */
  function Requested(items: seq<RawRange>, totalChunks: int): set<int> {
    set i | 0 <= i < totalChunks && AskedFor(items, totalChunks, i)
  }

  /** What an untrusted list may ask for: nothing when it is missing or too long. */
  function Accepted(raw: RawRanges, totalChunks: int): set<int> {
    if raw.NotAnArray? || totalChunks <= 0 || |raw.items| > MAX_RANGE_COUNT then {}
    else Requested(raw.items, totalChunks)
  }

  function NormalForm(raw: RawRanges, totalChunks: int): seq<Range> {
    Runs(Accepted(raw, totalChunks), Max(0, totalChunks))
  }

  predicate Before(a: Range, b: Range) {
    a.start < b.start || (a.start == b.start && a.length <= b.length)
  }

  predicate Ascending(ranges: seq<Range>) {
    forall k :: 0 < k < |ranges| ==> ranges[k - 1].start <= ranges[k].start
  }

  function Insert(r: Range, sorted: seq<Range>): (s: seq<Range>)
    requires Ascending(sorted)
    ensures Ascending(s) && |s| == |sorted| + 1
    ensures s[0] == r || (sorted != [] && s[0] == sorted[0])
  {
    if sorted == [] || Before(r, sorted[0]) then [r] + sorted else [sorted[0]] + Insert(r, sorted[1..])
  }

  lemma {:induction false} InsertKeepsElements(r: Range, sorted: seq<Range>)
    requires Ascending(sorted)
    ensures multiset(Insert(r, sorted)) == multiset(sorted) + multiset{r}
  {
    if sorted != [] {
      assert sorted == [sorted[0]] + sorted[1..];
      if !Before(r, sorted[0]) {
        InsertKeepsElements(r, sorted[1..]);
      }
    }
  }

  function Sort(ranges: seq<Range>): (s: seq<Range>)
    ensures Ascending(s) && multiset(s) == multiset(ranges)
  {
    if ranges == [] then []
    else
      assert ranges == [ranges[0]] + ranges[1..];
      InsertKeepsElements(ranges[0], Sort(ranges[1..]));
      Insert(ranges[0], Sort(ranges[1..]))
  }

  predicate InSome(ranges: seq<Range>, i: int) {
    exists k :: 0 <= k < |ranges| && ranges[k].start <= i < ranges[k].End()
  }

  lemma SortKeepsCoverage(ranges: seq<Range>)
    ensures |Sort(ranges)| == |ranges|
    ensures forall i :: InSome(Sort(ranges), i) <==> InSome(ranges, i)
    ensures forall k :: 0 <= k < |ranges| ==> Sort(ranges)[k] in ranges
  {
    var s := Sort(ranges);
    assert |multiset(s)| == |s| && |multiset(ranges)| == |ranges|;
    assert forall r :: r in s <==> r in multiset(s);
    assert forall r :: r in ranges <==> r in multiset(ranges);
    forall i ensures InSome(s, i) <==> InSome(ranges, i) {
      if InSome(s, i) {
        var k :| 0 <= k < |s| && s[k].start <= i < s[k].End();
        assert s[k] in ranges;
      }
      if InSome(ranges, i) {
        var k :| 0 <= k < |ranges| && ranges[k].start <= i < ranges[k].End();
        assert ranges[k] in s;
      }
    }
  }

  /** The usable elements, clipped to [0, totalChunks). */
  method Clamp(items: seq<RawRange>, totalChunks: int) returns (clamped: seq<Range>)
    ensures |clamped| <= |items|
    ensures forall r :: r in clamped ==> 0 <= r.start && 0 < r.length && r.End() <= totalChunks
    ensures forall i :: InSome(clamped, i) <==> AskedFor(items, totalChunks, i)
  {
    clamped := [];
    for k := 0 to |items|
      invariant |clamped| <= k
      invariant forall r :: r in clamped ==> 0 <= r.start && 0 < r.length && r.End() <= totalChunks
      invariant forall i :: InSome(clamped, i) <==> AskedFor(items[..k], totalChunks, i)
    {
      ghost var before := clamped;
      if items[k].Pair? {
        var start, length := items[k].start, items[k].length;
        if SafeInteger(start) && SafeInteger(length) && 0 <= start && 0 < length {
          var lo := Min(start, totalChunks);
          var end := Min(start + length, totalChunks);
          if lo < totalChunks && lo < end {
            clamped := clamped + [Range(lo, end - lo)];
          }
        }
      }
      AskedForOneMore(items, totalChunks, k);
      forall i ensures InSome(clamped, i) <==> InSome(before, i) || Asks(items[k], totalChunks, i) {
        InSomeOneMore(before, clamped, i);
      }
    }
    assert items[..|items|] == items;
  }

  lemma AskedForOneMore(items: seq<RawRange>, totalChunks: int, k: nat)
    requires k < |items|
    ensures forall i :: AskedFor(items[..k + 1], totalChunks, i)
                   <==> AskedFor(items[..k], totalChunks, i) || Asks(items[k], totalChunks, i)
  {
    var shorter, longer := items[..k], items[..k + 1];
    forall i
      ensures AskedFor(longer, totalChunks, i) <==> AskedFor(shorter, totalChunks, i) || Asks(items[k], totalChunks, i)
    {
      if AskedFor(shorter, totalChunks, i) {
        var j :| 0 <= j < k && Asks(shorter[j], totalChunks, i);
        assert longer[j] == shorter[j];
      }
      if Asks(items[k], totalChunks, i) {
        assert longer[k] == items[k];
      }
    }
  }

  lemma InSomeOneMore(shorter: seq<Range>, longer: seq<Range>, i: int)
    requires longer == shorter || (|longer| == |shorter| + 1 && longer[..|shorter|] == shorter)
    ensures InSome(longer, i)
       <==> (InSome(shorter, i) || (longer != shorter && longer[|shorter|].start <= i < longer[|shorter|].End()))
  {
    if InSome(shorter, i) {
      var j :| 0 <= j < |shorter| && shorter[j].start <= i < shorter[j].End();
      assert longer[j] == shorter[j];
    }
  }

  method ValidateAndNormalizeRanges(raw: RawRanges, totalChunks: int) returns (ranges: seq<Range>)
    ensures ranges == NormalForm(raw, totalChunks)
  {
    ghost var n := Max(0, totalChunks);
    RunsOf([], {}, n);
    if raw.NotAnArray? || totalChunks <= 0 {
      return [];
    }
    if |raw.items| > MAX_RANGE_COUNT {
      return [];
    }
    var clamped := Clamp(raw.items, totalChunks);
    if clamped == [] {
      assert forall i :: !InSome(clamped, i);
      RunsOf([], Requested(raw.items, totalChunks), n);
      return [];
    }
    SortKeepsCoverage(clamped);
    clamped := Sort(clamped);
    ranges := Merge(clamped, totalChunks);
    RunsOf(ranges, Requested(raw.items, totalChunks), n);
  }

  function Join(current: Range, next: Range): Range {
    Range(current.start, Max(current.End(), next.End()) - current.start)
  }

  lemma MergeCovers(merged: seq<Range>, current: Range, next: Range, j: int)
    requires current.start <= next.start
    ensures Covers(if next.start <= current.End() then merged + [Join(current, next)]
              else merged + [current] + [next], j)
       <==> (Covers(merged + [current], j) || next.start <= j < next.End())
  {
    CoversAppend(merged, current, j);
    CoversAppend(merged, Join(current, next), j);
    CoversAppend(merged + [current], next, j);
  }

  /** Joins ranges that overlap or touch, in one pass over an ascending list. */
  method Merge(sorted: seq<Range>, totalChunks: nat) returns (merged: seq<Range>)
    requires sorted != [] && Ascending(sorted)
    requires forall r :: r in sorted ==> 0 <= r.start && 0 < r.length && r.End() <= totalChunks
    ensures Canonical(merged, totalChunks)
    ensures forall j :: Covers(merged, j) <==> InSome(sorted, j)
  {
    merged := [];
    var current := sorted[0];
    for i := 1 to |sorted|
      invariant current.start <= sorted[i - 1].start
      invariant Canonical(merged, current.start - 1)
      invariant 0 <= current.start && 0 < current.length && current.End() <= totalChunks
      invariant forall j :: Covers(merged + [current], j) <==> InSome(sorted[..i], j)
    {
      var next, end := sorted[i], current.End();
      ghost var was, closed := current, merged;
      assert next in sorted;
      if next.start <= end {
        current := Join(current, next);
      } else {
        CanonicalAppend(merged, current, next.start - 1);
        merged := merged + [current];
        current := next;
      }
      forall j ensures Covers(merged + [current], j) <==> InSome(sorted[..i + 1], j) {
        assert Covers(closed + [was], j) <==> InSome(sorted[..i], j);
        InSomeOneMore(sorted[..i], sorted[..i + 1], j);
        MergeCovers(closed, was, next, j);
      }
    }
    CanonicalAppend(merged, current, totalChunks);
    merged := merged + [current];
    assert sorted[..|sorted|] == sorted;
  }

  method RangesToBitmap(raw: RawRanges, totalChunks: int) returns (buf: array<bv8>)
    ensures fresh(buf) && buf.Length == BitmapByteLength(totalChunks)
    ensures totalChunks + 7 < WORD ==> Bits(buf[..]) == Accepted(raw, totalChunks)
  {
    buf := NewBitmap(totalChunks);
    var normalized := ValidateAndNormalizeRanges(raw, totalChunks);
    ghost var accepted, n := Accepted(raw, totalChunks), Max(0, totalChunks);
    RunsAreCanonical(accepted, n);
    for k := 0 to |normalized|
      invariant fresh(buf) && buf.Length == BitmapByteLength(totalChunks)
      invariant totalChunks + 7 < WORD ==> forall i :: i in Bits(buf[..]) <==> Covers(normalized[..k], i)
    {
      assert normalized[..k + 1] == normalized[..k] + [normalized[k]];
      CanonicalElement(normalized, n, k);
      SetRun(buf, normalized[k].start, normalized[k].End());
      forall i
        ensures Covers(normalized[..k + 1], i)
           <==> (Covers(normalized[..k], i) || normalized[k].start <= i < normalized[k].End())
      {
        CoversAppend(normalized[..k], normalized[k], i);
      }
    }
    assert normalized[..|normalized|] == normalized;
    assert forall i :: i in accepted ==> 0 <= i < n;
  }

  method SetRun(buf: array<bv8>, start: nat, end: int)
    requires start <= end
    modifies buf
    ensures end <= 8 * buf.Length && end <= WORD ==>
              forall i :: i in Bits(buf[..]) <==> (i in old(Bits(buf[..])) || start <= i < end)
  {
    for j := start to end
      invariant end <= 8 * buf.Length && end <= WORD ==>
                  forall i :: i in Bits(buf[..]) <==> (i in old(Bits(buf[..])) || start <= i < j)
    {
      ghost var before := Bits(buf[..]);
      var flipped := BitmapSet(buf, j);
      assert end <= 8 * buf.Length && end <= WORD ==> Wrap(j) == j && Bits(buf[..]) == before + {j};
    }
  }

  lemma {:induction false} CanonicalElement(ranges: seq<Range>, n: int, k: nat)
    requires Canonical(ranges, n) && k < |ranges|
    ensures 0 <= ranges[k].start && 0 < ranges[k].length && ranges[k].End() <= n
  {
    if k < |ranges| - 1 {
      CanonicalElement(ranges[..|ranges| - 1], ranges[|ranges| - 1].start - 1, k);
    }
  }

  // ----- the set encoder -----

  predicate StrictlyAscending(s: seq<int>) {
    forall j, k :: 0 <= j < k < |s| ==> s[j] < s[k]
  }

  method InsertIndex(sorted: seq<int>, x: int) returns (s: seq<int>)
    requires StrictlyAscending(sorted) && x !in sorted
    ensures StrictlyAscending(s) && forall y :: y in s <==> y in sorted || y == x
  {
    var at := |sorted|;
    while at > 0 && sorted[at - 1] > x
      invariant 0 <= at <= |sorted| && forall k :: at <= k < |sorted| ==> x < sorted[k]
    {
      at := at - 1;
    }
    s := sorted[..at] + [x] + sorted[at..];
    assert forall y :: y in sorted <==> y in sorted[..at] || y in sorted[at..];
  }

  /** `sorted` lists the members below `totalChunks`, ascending. */
  ghost predicate ListsBelow(sorted: seq<int>, indexes: set<int>, totalChunks: int) {
    StrictlyAscending(sorted) && forall i :: i in sorted <==> i in indexes && 0 <= i < totalChunks
  }

  /** The source filters the set and sorts it. */
  method SortedMembers(indexes: seq<int>, totalChunks: int) returns (sorted: seq<int>)
    requires Distinct(indexes)
    ensures ListsBelow(sorted, Members(indexes), totalChunks)
  {
    sorted := [];
    for k := 0 to |indexes|
      invariant ListsBelow(sorted, Members(indexes[..k]), totalChunks)
    {
      var i := indexes[k];
      assert Members(indexes[..k + 1]) == Members(indexes[..k]) + {i};
      if 0 <= i < totalChunks {
        sorted := InsertIndex(sorted, i);
      }
    }
    assert indexes[..|indexes|] == indexes;
  }

  /** The set arrives as its members in insertion order. */
  method SetToRanges(members: seq<int>, totalChunks: int) returns (ranges: seq<Range>)
    requires Distinct(members)
    ensures ranges == Runs(Members(members), Max(0, totalChunks))
  {
    var sorted := SortedMembers(members, totalChunks);
    ranges := EncodeSorted(sorted, Members(members), totalChunks);
  }

  /** The scan over the sorted members, closing a run at every jump. */
  method EncodeSorted(sorted: seq<int>, ghost indexes: set<int>, totalChunks: int) returns (ranges: seq<Range>)
    requires ListsBelow(sorted, indexes, totalChunks)
    ensures ranges == Runs(indexes, Max(0, totalChunks))
  {
    ghost var n := Max(0, totalChunks);
    if sorted == [] {
      AfterLast(indexes, sorted, totalChunks);
      return [];
    }
    ranges := [];
    var runStart, prev := sorted[0], sorted[0];
    NextMember(indexes, sorted, totalChunks, 0);
    for i := 1 to |sorted|
      invariant prev == sorted[i - 1] && 0 <= runStart <= prev < totalChunks
      invariant ranges + [Range(runStart, prev - runStart + 1)] == Runs(indexes, prev + 1)
    {
      var v := sorted[i];
      ScanStep(indexes, sorted, totalChunks, i, ranges, runStart);
      if v == prev + 1 {
        prev := v;
        continue;
      }
      ranges := ranges + [Range(runStart, prev - runStart + 1)];
      runStart, prev := v, v;
    }
    AfterLast(indexes, sorted, totalChunks);
    ranges := ranges + [Range(runStart, prev - runStart + 1)];
  }

  lemma NextRun(indexes: set<int>, closed: seq<Range>, last: Range, v: nat)
    requires 0 <= last.start && 0 < last.length && last.End() <= v && v in indexes
    requires closed + [last] == Runs(indexes, last.End()) == Runs(indexes, v)
    ensures Runs(indexes, v + 1)
         == if v == last.End() then closed + [Range(last.start, last.length + 1)] else closed + [last] + [Range(v, 1)]
  {
    var runs := Runs(indexes, v);
    assert runs[..|runs| - 1] == closed && runs[|runs| - 1] == last;
  }

  // One step of the scan: the run goes on, or it is closed and the next one begins.
  lemma ScanStep(indexes: set<int>, sorted: seq<int>, totalChunks: int, i: nat, ranges: seq<Range>, runStart: int)
    requires ListsBelow(sorted, indexes, totalChunks) && 1 <= i < |sorted|
    requires 0 <= runStart <= sorted[i - 1] < totalChunks
    requires ranges + [Range(runStart, sorted[i - 1] - runStart + 1)] == Runs(indexes, sorted[i - 1] + 1)
    ensures var prev, v := sorted[i - 1], sorted[i];
            && prev < v < totalChunks
            && (v == prev + 1 ==> Runs(indexes, v + 1) == ranges + [Range(runStart, v - runStart + 1)])
            && (v != prev + 1
               ==> Runs(indexes, v + 1) == ranges + [Range(runStart, prev - runStart + 1)] + [Range(v, 1)])
  {
    NextMember(indexes, sorted, totalChunks, i);
    NextRun(indexes, ranges, Range(runStart, sorted[i - 1] - runStart + 1), sorted[i]);
  }

  // Between two neighbours of the sorted list the set has no members.
  lemma NextMember(indexes: set<int>, sorted: seq<int>, totalChunks: int, k: nat)
    requires ListsBelow(sorted, indexes, totalChunks) && k < |sorted|
    ensures 0 <= sorted[k] < totalChunks && sorted[k] in indexes
    ensures var from := if k == 0 then 0 else sorted[k - 1] + 1;
            0 <= from <= sorted[k] && Runs(indexes, sorted[k]) == Runs(indexes, from)
  {
    assert sorted[k] in sorted && (k > 0 ==> sorted[k - 1] in sorted);
    var from := if k == 0 then 0 else sorted[k - 1] + 1;
    forall i | from <= i < sorted[k] ensures i !in indexes {
      NothingBetween(sorted, k, i);
    }
    RunsSkipGaps(indexes, from, sorted[k]);
  }

  lemma AfterLast(indexes: set<int>, sorted: seq<int>, totalChunks: int)
    requires ListsBelow(sorted, indexes, totalChunks)
    ensures var from := if sorted == [] then 0 else sorted[|sorted| - 1] + 1;
            0 <= from <= Max(0, totalChunks) && Runs(indexes, from) == Runs(indexes, Max(0, totalChunks))
  {
    var n, from := Max(0, totalChunks), if sorted == [] then 0 else sorted[|sorted| - 1] + 1;
    assert sorted != [] ==> sorted[|sorted| - 1] in sorted;
    forall i | from <= i < n ensures i !in indexes {
      assert forall j :: 0 <= j < |sorted| ==> sorted[j] <= sorted[|sorted| - 1];
    }
    RunsSkipGaps(indexes, from, n);
  }

  lemma NothingBetween(sorted: seq<int>, k: nat, i: int)
    requires StrictlyAscending(sorted) && k < |sorted| && i < sorted[k] && (k > 0 ==> sorted[k - 1] < i)
    ensures i !in sorted
  {
    forall j | 0 <= j < |sorted| ensures sorted[j] != i {
      assert j > k ==> sorted[k] < sorted[j];
      assert j < k - 1 ==> sorted[j] < sorted[k - 1];
    }
  }

  // ----- the two directions -----

  function AsRaw(ranges: seq<Range>): RawRanges {
    Elements(seq(|ranges|, k requires 0 <= k < |ranges| => Pair(ranges[k].start, ranges[k].length)))
  }

  lemma {:induction false} CoversSome(ranges: seq<Range>, i: int)
    ensures Covers(ranges, i) <==> InSome(ranges, i)
  {
    if ranges != [] {
      CoversSome(ranges[..|ranges| - 1], i);
      InSomeOneMore(ranges[..|ranges| - 1], ranges, i);
    }
  }

  /** A short enough canonical list asks for exactly what it covers. */
  lemma CanonicalAsksForItsCover(ranges: seq<Range>, totalChunks: int)
    requires Canonical(ranges, totalChunks) && 0 < totalChunks <= MAX_SAFE_INTEGER && |ranges| <= MAX_RANGE_COUNT
    ensures forall i :: i in Accepted(AsRaw(ranges), totalChunks) <==> Covers(ranges, i)
  {
    var items := AsRaw(ranges).items;
    forall i ensures AskedFor(items, totalChunks, i) && 0 <= i < totalChunks <==> Covers(ranges, i) {
      CoversSome(ranges, i);
      forall k | 0 <= k < |ranges|
        ensures Asks(items[k], totalChunks, i) <==> ranges[k].start <= i < ranges[k].End()
      {
        CanonicalElement(ranges, totalChunks, k);
      }
      if InSome(ranges, i) {
        CanonicalStaysBelow(ranges, totalChunks, i);
      }
    }
  }

  /** The ranges of an untrusted list survive the bitmap unchanged: `buf` is any buffer that meets
  what RangesToBitmap promises. */
  lemma RangesSurviveTheBitmap(raw: RawRanges, totalChunks: int, buf: seq<bv8>)
    requires totalChunks + 7 < WORD
    requires |buf| == BitmapByteLength(totalChunks) && Bits(buf) == Accepted(raw, totalChunks)
    ensures BitmapRanges(buf, totalChunks) == NormalForm(raw, totalChunks)
  {
  }

  /** The bound is exact: from 2^32 - 7 chunks on the byte length wraps, and a request for the last
  chunk comes back from no buffer of that length. */
  lemma HugeCountsLoseRanges(totalChunks: int, buf: seq<bv8>)
    requires WORD <= totalChunks + 7 && totalChunks <= MAX_SAFE_INTEGER
    requires |buf| == BitmapByteLength(totalChunks)
    ensures BitmapRanges(buf, totalChunks) != NormalForm(Elements([Pair(totalChunks - 1, 1)]), totalChunks)
  {
    var items := [Pair(totalChunks - 1, 1)];
    assert Asks(items[0], totalChunks, totalChunks - 1);
    RunsAreCanonical(Accepted(Elements(items), totalChunks), totalChunks);
    assert Covers(NormalForm(Elements(items), totalChunks), totalChunks - 1);
    RunsAreCanonical(Bits(buf), Max(0, Min(totalChunks, 8 * |buf|)));
  }

  function Below(s: set<int>, n: int): set<int> {
    set i | i in s && i < n
  }

  /** The other direction restores every bit below `totalChunks` exactly when there are few enough
  runs for the cap on range lists. */
  lemma BitmapSurvivesTheRanges(buf: seq<bv8>, totalChunks: int, back: seq<bv8>)
    requires 0 < totalChunks && totalChunks + 7 < WORD && |buf| == BitmapByteLength(totalChunks)
    requires Bits(back) == Accepted(AsRaw(BitmapRanges(buf, totalChunks)), totalChunks)
    ensures Bits(back) == Below(Bits(buf), totalChunks) <==> |BitmapRanges(buf, totalChunks)| <= MAX_RANGE_COUNT
  {
    var runs := BitmapRanges(buf, totalChunks);
    RunsAreCanonical(Bits(buf), totalChunks);
    if |runs| <= MAX_RANGE_COUNT {
      CanonicalAsksForItsCover(runs, totalChunks);
    } else {
      CanonicalElement(runs, totalChunks, |runs| - 1);
      assert Covers(runs, runs[|runs| - 1].start);
      assert runs[|runs| - 1].start in Below(Bits(buf), totalChunks);
      assert Bits(back) == {};
    }
  }

  /** No index of 2^32 or more wraps onto a chunk the set does not hold. */
  predicate WrapsOntoMembers(indexes: set<int>, totalChunks: int) {
    forall i :: i in indexes && WORD <= i && Wrap(i) < totalChunks ==> Wrap(i) in indexes
  }

  lemma LandedBelow(indexes: set<int>, totalChunks: int, bytes: nat, j: int)
    requires totalChunks <= 8 * bytes && 0 <= j < totalChunks < WORD && WrapsOntoMembers(indexes, totalChunks)
    ensures j in Landed(indexes, bytes) <==> j in indexes
  {
    assert Wrap(j) == j;
    if j in Landed(indexes, bytes) {
      var i :| i in indexes && 0 <= i && Wrap(i) == j;
      assert i < WORD ==> i == j;
    }
  }

  /** The set encoder and the bitmap encoder agree exactly when no large index aliases a chunk that
  is not in the set. */
  lemma EncodersAgree(indexes: set<int>, totalChunks: int, buf: seq<bv8>)
    requires 0 < totalChunks && totalChunks + 7 < WORD && |buf| == BitmapByteLength(totalChunks)
    requires Bits(buf) == Landed(indexes, |buf|)
    ensures BitmapRanges(buf, totalChunks) == Runs(indexes, totalChunks) <==> WrapsOntoMembers(indexes, totalChunks)
  {
    RunsAreCanonical(Bits(buf), totalChunks);
    if WrapsOntoMembers(indexes, totalChunks) {
      forall j | 0 <= j < totalChunks ensures j in Bits(buf) <==> j in indexes {
        LandedBelow(indexes, totalChunks, |buf|, j);
      }
      RunsOf(BitmapRanges(buf, totalChunks), indexes, totalChunks);
    } else {
      RunsAreCanonical(indexes, totalChunks);
      var i :| i in indexes && WORD <= i && Wrap(i) < totalChunks && Wrap(i) !in indexes;
      assert Wrap(i) in Landed(indexes, |buf|);
      assert Covers(BitmapRanges(buf, totalChunks), Wrap(i));
    }
  }

  // No run is preceded by a covered index.
  lemma {:induction false} GapBefore(ranges: seq<Range>, n: int, k: nat)
    requires Canonical(ranges, n) && k < |ranges|
    ensures !Covers(ranges, ranges[k].start - 1)
  {
    var init, last := ranges[..|ranges| - 1], ranges[|ranges| - 1];
    if k == |init| {
      if Covers(init, last.start - 1) {
        CanonicalStaysBelow(init, last.start - 1, last.start - 1);
      }
    } else {
      GapBefore(init, last.start - 1, k);
      CanonicalElement(init, last.start - 1, k);
    }
  }

  lemma {:induction false} RunsAreFew(ranges: seq<Range>, n: int, starts: set<int>)
    requires Canonical(ranges, n) && forall k :: 0 <= k < |ranges| ==> ranges[k].start in starts
    ensures |ranges| <= |starts|
  {
    if ranges != [] {
      var init, last := ranges[..|ranges| - 1], ranges[|ranges| - 1];
      forall k | 0 <= k < |init| ensures init[k].start in starts - {last.start} {
        assert init[k] == ranges[k];
        CanonicalElement(init, last.start - 1, k);
      }
      RunsAreFew(init, last.start - 1, starts - {last.start});
    }
  }

  function Starts(items: seq<RawRange>): (starts: set<int>)
    ensures |starts| <= |items|
    ensures forall k :: 0 <= k < |items| && items[k].Pair? ==> items[k].start in starts
  {
    if items == [] then {}
    else
      var last := items[|items| - 1];
      Starts(items[..|items| - 1]) + (if last.Pair? then {last.start} else {})
  }

  /** Normalising never makes a list longer: every run starts where some element asks to start. */
  lemma NormalFormIsNoLonger(items: seq<RawRange>, totalChunks: int)
    ensures |NormalForm(Elements(items), totalChunks)| <= |items|
  {
    var n, accepted, ranges := Max(0, totalChunks), Accepted(Elements(items), totalChunks),
      NormalForm(Elements(items), totalChunks);
    RunsAreCanonical(accepted, n);
    forall r | 0 <= r < |ranges| ensures ranges[r].start in Starts(items) {
      var start := ranges[r].start;
      CanonicalElement(ranges, n, r);
      CoversSome(ranges, start);
      assert InSome(ranges, start);
      GapBefore(ranges, n, r);
      var k :| 0 <= k < |items| && Asks(items[k], totalChunks, start);
      assert start > 0 ==> !AskedFor(items, totalChunks, start - 1);
    }
    RunsAreFew(ranges, n, Starts(items));
  }

  /** Normalisation is idempotent. */
  lemma NormalFormIsStable(items: seq<RawRange>, totalChunks: int)
    requires totalChunks <= MAX_SAFE_INTEGER
    ensures NormalForm(AsRaw(NormalForm(Elements(items), totalChunks)), totalChunks)
            == NormalForm(Elements(items), totalChunks)
  {
    var n, ranges := Max(0, totalChunks), NormalForm(Elements(items), totalChunks);
    RunsAreCanonical(Accepted(Elements(items), totalChunks), n);
    NormalFormIsNoLonger(items, totalChunks);
    if 0 < totalChunks && |items| <= MAX_RANGE_COUNT {
      CanonicalAsksForItsCover(ranges, totalChunks);
      RunsOf(ranges, Accepted(AsRaw(ranges), totalChunks), n);
    } else {
      RunsOf([], {}, n);
      assert Accepted(AsRaw([]), totalChunks) == {};
    }
  }
}
