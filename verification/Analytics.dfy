/** Cursor pagination over the provider's usage table: fetchIdentifierPages of server/src/turn.ts. */
module Analytics {

  import opened Common

  datatype UsageRow = UsageRow(cid: string, bytes: nat)

  datatype Cursor = Start | Past(cid: string)

  // ----- the provider -----

  /** Strict order of identifiers, character by character. */
  predicate Before(a: string, b: string) {
    b != [] && (a == [] || a[0] < b[0] || (a[0] == b[0] && Before(a[1..], b[1..])))
  }

  predicate Passes(cursor: Cursor, cid: string) {
    cursor.Start? || Before(cursor.cid, cid)
  }

  function Beyond(table: seq<UsageRow>, cursor: Cursor): seq<UsageRow> {
    if table == [] then []
    else (if Passes(cursor, table[0].cid) then [table[0]] else []) + Beyond(table[1..], cursor)
  }

  /** One query: the rows past the cursor, in the table's order, cut off at the page limit. */
  function Query(table: seq<UsageRow>, cursor: Cursor, limit: nat): seq<UsageRow> {
    var rows := Beyond(table, cursor);
    if |rows| <= limit then rows else rows[..limit]
  }

  /** One row for each identifier, ordered, none of them empty. */
  ghost predicate WellOrdered(table: seq<UsageRow>) {
    && (forall i :: 0 <= i < |table| ==> table[i].cid != "")
    && (forall i :: 0 <= i < |table| - 1 ==> Before(table[i].cid, table[i + 1].cid))
  }

  lemma {:induction false} BeforeIsTransitive(a: string, b: string, c: string)
    requires Before(a, b) && Before(b, c)
    ensures Before(a, c)
  {
    if a != [] && a[0] == b[0] && b[0] == c[0] {
      BeforeIsTransitive(a[1..], b[1..], c[1..]);
    }
  }

  lemma {:induction false} NotBeforeItself(a: string)
    ensures !Before(a, a)
  {
    if a != [] {
      NotBeforeItself(a[1..]);
    }
  }

  lemma {:induction false} OrderedFarApart(table: seq<UsageRow>, i: nat, j: nat)
    requires WellOrdered(table) && i < j < |table|
    ensures Before(table[i].cid, table[j].cid)
  {
    if i + 1 < j {
      OrderedFarApart(table, i, j - 1);
      assert Before(table[j - 1].cid, table[j - 1 + 1].cid);
      BeforeIsTransitive(table[i].cid, table[j - 1].cid, table[j].cid);
    }
  }

  lemma BeforeIsOneWay(a: string, b: string)
    requires Before(a, b)
    ensures !Before(b, a) && a != b
  {
    NotBeforeItself(a);
    if Before(b, a) {
      BeforeIsTransitive(a, b, a);
    }
  }

  lemma {:induction false} NothingPasses(rows: seq<UsageRow>, cursor: Cursor)
    requires forall i :: 0 <= i < |rows| ==> !Passes(cursor, rows[i].cid)
    ensures Beyond(rows, cursor) == []
  {
    if rows != [] {
      NothingPasses(rows[1..], cursor);
    }
  }

  lemma {:induction false} EverythingPasses(rows: seq<UsageRow>, cursor: Cursor)
    requires forall i :: 0 <= i < |rows| ==> Passes(cursor, rows[i].cid)
    ensures Beyond(rows, cursor) == rows
  {
    if rows != [] {
      EverythingPasses(rows[1..], cursor);
    }
  }

  lemma {:induction false} BeyondConcat(left: seq<UsageRow>, right: seq<UsageRow>, cursor: Cursor)
    ensures Beyond(left + right, cursor) == Beyond(left, cursor) + Beyond(right, cursor)
  {
    if left == [] {
      assert left + right == right;
    } else {
      var head := if Passes(cursor, left[0].cid) then [left[0]] else [];
      BeyondConcat(left[1..], right, cursor);
      assert (left + right)[1..] == left[1..] + right && (left + right)[0] == left[0];
      assert Beyond(left + right, cursor) == head + Beyond(left[1..] + right, cursor);
      assert head + (Beyond(left[1..], cursor) + Beyond(right, cursor))
             == (head + Beyond(left[1..], cursor)) + Beyond(right, cursor);
    }
  }

  /** The rows fetched so far are a prefix; its last identifier as a cursor resumes right after it. */
  function CursorAfter(table: seq<UsageRow>, k: nat): Cursor
    requires k <= |table|
  {
    if k == 0 then Start else Past(table[k - 1].cid)
  }

  // Nothing fetched so far lies beyond the cursor, and everything after it does.
  lemma FetchedAreNotBeyond(table: seq<UsageRow>, k: nat)
    requires WellOrdered(table) && 0 < k <= |table|
    ensures Beyond(table[..k], Past(table[k - 1].cid)) == []
  {
    forall i | 0 <= i < k ensures !Passes(Past(table[k - 1].cid), table[i].cid) {
      if i == k - 1 {
        NotBeforeItself(table[i].cid);
      } else {
        OrderedFarApart(table, i, k - 1);
        BeforeIsOneWay(table[i].cid, table[k - 1].cid);
      }
    }
    NothingPasses(table[..k], Past(table[k - 1].cid));
  }

  lemma RestIsBeyond(table: seq<UsageRow>, k: nat)
    requires WellOrdered(table) && 0 < k <= |table|
    ensures Beyond(table[k..], Past(table[k - 1].cid)) == table[k..]
  {
    var rest := table[k..];
    forall i | 0 <= i < |rest| ensures Passes(Past(table[k - 1].cid), rest[i].cid) {
      OrderedFarApart(table, k - 1, k + i);
    }
    EverythingPasses(rest, Past(table[k - 1].cid));
  }

  lemma BeyondRest(rows: seq<UsageRow>, left: seq<UsageRow>, right: seq<UsageRow>, cursor: Cursor)
    requires rows == left + right && Beyond(left, cursor) == [] && Beyond(right, cursor) == right
    ensures Beyond(rows, cursor) == right
  {
    BeyondConcat(left, right, cursor);
    assert [] + right == right;
  }

  lemma SplitAt<T>(s: seq<T>, k: nat)
    requires k <= |s|
    ensures s == s[..k] + s[k..]
  {
  }

  lemma ResumesAfter(table: seq<UsageRow>, k: nat)
    requires WellOrdered(table) && k <= |table|
    ensures Beyond(table, CursorAfter(table, k)) == table[k..]
  {
    if k > 0 {
      FetchedAreNotBeyond(table, k);
      RestIsBeyond(table, k);
      SplitAt(table, k);
      BeyondRest(table, table[..k], table[k..], Past(table[k - 1].cid));
    } else {
      EverythingPasses(table, Start);
    }
  }

  lemma NextPage(table: seq<UsageRow>, k: nat, limit: nat)
    requires WellOrdered(table) && k <= |table|
    ensures var batch := Query(table, CursorAfter(table, k), limit);
            var end := Min(|table|, k + limit);
            && batch == table[k..end] && |batch| == end - k && table[..k] + batch == table[..end]
            && (k < end ==> batch[|batch| - 1] == table[end - 1])
  {
    ResumesAfter(table, k);
  }

  // ----- the client -----

  /** Against a well-ordered table every row comes back exactly once when the answer is not truncated, and
  otherwise exactly the first limit * maxPages rows do. */
  method FetchIdentifierPages(table: seq<UsageRow>, limit: nat, maxPages: nat)
      returns (rows: seq<UsageRow>, truncated: bool)
    requires WellOrdered(table) && limit >= 1
    ensures rows == table[..Min(|table|, limit * maxPages)]
    ensures truncated <==> |table| >= limit * maxPages
    ensures !truncated ==> rows == table
  {
    rows := [];
    var cursor := Start;
    var page := 0;
    while page < maxPages
      invariant page <= maxPages
      invariant |rows| == limit * page <= |table| && rows == table[..|rows|]
      invariant cursor == CursorAfter(table, |rows|)
    {
      ghost var k := |rows|;
      ghost var end := Min(|table|, k + limit);
      NextPage(table, k, limit);
      PagesFit(limit, page, maxPages);
      var batch := Query(table, cursor, limit);
      rows := rows + batch;
      assert rows == table[..end];
      if |batch| < limit {
        return rows, false;
      }
      var last := batch[|batch| - 1].cid;
      Progress(table, k, |rows|);
      if last == "" || cursor == Past(last) {
        return rows, false;
      }
      cursor := Past(last);
      page := page + 1;
    }
    return rows, true;
  }

  // The guard against a cursor that does not advance never fires on a well-ordered table.
  lemma Progress(table: seq<UsageRow>, k: nat, next: nat)
    requires WellOrdered(table) && k < next <= |table|
    ensures table[next - 1].cid != "" && CursorAfter(table, k) != Past(table[next - 1].cid)
  {
    if k > 0 {
      OrderedFarApart(table, k - 1, next - 1);
      BeforeIsOneWay(table[k - 1].cid, table[next - 1].cid);
    }
  }

  lemma PagesFit(limit: nat, page: nat, maxPages: nat)
    requires page < maxPages
    ensures limit * page + limit == limit * (page + 1) <= limit * maxPages
  {
    assert maxPages == page + 1 + (maxPages - page - 1);
    assert limit * maxPages == limit * (page + 1) + limit * (maxPages - page - 1);
  }

  // ----- what is made of the rows -----

  function BytesOf(rows: seq<UsageRow>): nat {
    if rows == [] then 0 else BytesOf(rows[..|rows| - 1]) + rows[|rows| - 1].bytes
  }

  function BytesFor(rows: seq<UsageRow>, cid: string): nat {
    if rows == [] then 0
    else BytesFor(rows[..|rows| - 1], cid) + (if rows[|rows| - 1].cid == cid then rows[|rows| - 1].bytes else 0)
  }

  method SumRows(rows: seq<UsageRow>) returns (total: nat)
    ensures total == BytesOf(rows)
  {
    total := 0;
    for i := 0 to |rows|
      invariant total == BytesOf(rows[..i])
    {
      assert rows[..i + 1][..i] == rows[..i];
      total := total + rows[i].bytes;
    }
    assert rows[..|rows|] == rows;
  }

  lemma {:induction false} PrefixSumsLess(rows: seq<UsageRow>, k: nat)
    requires k <= |rows|
    ensures BytesOf(rows[..k]) <= BytesOf(rows)
    decreases |rows| - k
  {
    if k < |rows| {
      assert rows[..k + 1][..k] == rows[..k];
      PrefixSumsLess(rows, k + 1);
    } else {
      assert rows[..k] == rows;
    }
  }

  /** The fallback total: exact when the answer was not truncated, and never more than the truth. */
  method FallbackTotal(table: seq<UsageRow>, limit: nat, maxPages: nat) returns (total: nat, truncated: bool)
    requires WellOrdered(table) && limit >= 1
    ensures total <= BytesOf(table)
    ensures !truncated ==> total == BytesOf(table)
    ensures truncated <==> |table| >= limit * maxPages
  {
    var rows;
    rows, truncated := FetchIdentifierPages(table, limit, maxPages);
    total := SumRows(rows);
    PrefixSumsLess(table, |rows|);
  }

  /** The usage poll's map: the bytes of each identifier's rows, the empty identifier aside. */
  method BytesByIdentifier(rows: seq<UsageRow>) returns (byCid: map<string, nat>)
    ensures forall cid :: cid in byCid <==> cid != "" && Reports(rows, cid)
    ensures forall cid :: cid in byCid ==> byCid[cid] == BytesFor(rows, cid)
  {
    byCid := map[];
    for i := 0 to |rows|
      invariant forall cid :: cid in byCid <==> cid != "" && Reports(rows[..i], cid)
      invariant forall cid :: cid != "" ==> BytesFor(rows[..i], cid) == if cid in byCid then byCid[cid] else 0
    {
      assert rows[..i + 1] == rows[..i] + [rows[i]];
      NextRow(rows[..i], rows[i]);
      var cid := rows[i].cid;
      if cid != "" {
        byCid := byCid[cid := (if cid in byCid then byCid[cid] else 0) + rows[i].bytes];
      }
    }
    assert rows[..|rows|] == rows;
  }

  predicate Reports(rows: seq<UsageRow>, cid: string) {
    exists i :: 0 <= i < |rows| && rows[i].cid == cid
  }

  lemma NextRow(rows: seq<UsageRow>, last: UsageRow)
    ensures forall cid :: Reports(rows + [last], cid) <==> Reports(rows, cid) || last.cid == cid
    ensures forall cid ::
              BytesFor(rows + [last], cid) == BytesFor(rows, cid) + (if last.cid == cid then last.bytes else 0)
  {
    assert (rows + [last])[..|rows|] == rows && (rows + [last])[|rows|] == last;
    forall cid | Reports(rows, cid) ensures Reports(rows + [last], cid) {
      var i :| 0 <= i < |rows| && rows[i].cid == cid;
      assert (rows + [last])[i].cid == cid;
    }
  }

  lemma {:induction false} NoRowNoBytes(rows: seq<UsageRow>, cid: string)
    requires forall i :: 0 <= i < |rows| ==> rows[i].cid != cid
    ensures BytesFor(rows, cid) == 0
  {
    if rows != [] {
      NoRowNoBytes(rows[..|rows| - 1], cid);
    }
  }

  /** Each identifier of a prefix of the table is charged its one row's bytes. */
  lemma {:induction false} OneRowEach(table: seq<UsageRow>, k: nat, i: nat)
    requires WellOrdered(table) && i < k <= |table|
    ensures BytesFor(table[..k], table[i].cid) == table[i].bytes
  {
    assert table[..k][..k - 1] == table[..k - 1];
    if i == k - 1 {
      var earlier := table[..k - 1];
      forall j | 0 <= j < |earlier| ensures earlier[j].cid != table[i].cid {
        OrderedFarApart(table, j, i);
        BeforeIsOneWay(table[j].cid, table[i].cid);
      }
      NoRowNoBytes(table[..k - 1], table[i].cid);
    } else {
      OneRowEach(table, k - 1, i);
      OrderedFarApart(table, i, k - 1);
      BeforeIsOneWay(table[i].cid, table[k - 1].cid);
    }
  }
}
