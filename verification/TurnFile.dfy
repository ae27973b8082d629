/** The file of the accounting state: what a snapshot says of a state, and that it says it of one state only. */
module TurnFile {

  import opened Common
  import opened TurnState
  import S = Snapshot

  // ----- months -----

  const MONTHS := 120_000

  function Numeral(d: nat): char
    requires d < 10
  {
    (48 + d) as char
  }

  lemma NumeralIsInjective(d: nat, e: nat)
    requires d < 10 && e < 10 && Numeral(d) == Numeral(e)
    ensures d == e
  {
    assert Numeral(d) as int == 48 + d && Numeral(e) as int == 48 + e;
  }

  function TwoDigits(n: nat): string
    requires n < 100
  {
    [Numeral(n / 10), Numeral(n % 10)]
  }

  lemma TwoDigitsAreInjective(m: nat, n: nat)
    requires m < 100 && n < 100 && TwoDigits(m) == TwoDigits(n)
    ensures m == n
  {
    assert TwoDigits(m)[0] == TwoDigits(n)[0] && TwoDigits(m)[1] == TwoDigits(n)[1];
    NumeralIsInjective(m / 10, n / 10);
    NumeralIsInjective(m % 10, n % 10);
  }

  /** "YYYY-MM" for months counted from January of the year 0. */
  function MonthKey(month: nat): string
    requires month < MONTHS
  {
    TwoDigits(month / 1200) + TwoDigits(month / 12 % 100) + ['-'] + TwoDigits(month % 12 + 1)
  }

  lemma MonthKeyIsKey(month: nat)
    requires month < MONTHS
    ensures S.IsMonthKey(MonthKey(month))
  {
  }

  lemma KeyParts(x: string, y: string, z: string)
    requires |x| == 2 && |y| == 2
    ensures var key := x + y + ['-'] + z; key[..2] == x && key[2..4] == y && key[5..] == z
  {
  }

  lemma MonthKeyIsInjective(a: nat, b: nat)
    requires a < MONTHS && b < MONTHS && MonthKey(a) == MonthKey(b)
    ensures a == b
  {
    KeyParts(TwoDigits(a / 1200), TwoDigits(a / 12 % 100), TwoDigits(a % 12 + 1));
    KeyParts(TwoDigits(b / 1200), TwoDigits(b / 12 % 100), TwoDigits(b % 12 + 1));
    TwoDigitsAreInjective(a / 1200, b / 1200);
    TwoDigitsAreInjective(a / 12 % 100, b / 12 % 100);
    TwoDigitsAreInjective(a % 12 + 1, b % 12 + 1);
    MonthParts(a);
    MonthParts(b);
  }

  lemma MonthParts(month: nat)
    ensures month == 1200 * (month / 1200) + 12 * (month / 12 % 100) + month % 12
  {
    assert month / 12 / 100 == month / 1200;
  }

  // ----- what the file says of a state -----

  function KeyText(key: DenyKey): string {
    match key
    case IpKey(ip) => "ip:" + ip
    case PrincipalKey(principal) => "principal:" + principal
    case CidKey(cid) => "cid:" + cid
  }

  lemma KeyTextIsInjective(a: DenyKey, b: DenyKey)
    requires KeyText(a) == KeyText(b)
    ensures a == b
  {
    assert KeyText(a)[0] == KeyText(b)[0];
    match a
    case IpKey(ip) => assert KeyText(a)[3..] == ip && b.IpKey? && KeyText(b)[3..] == b.ip;
    case PrincipalKey(p) => assert KeyText(a)[10..] == p && b.PrincipalKey? && KeyText(b)[10..] == b.principal;
    case CidKey(cid) => assert KeyText(a)[4..] == cid && b.CidKey? && KeyText(b)[4..] == b.cid;
  }

  function TextOf(s: string): Option<string> {
    if s == "" then None else Some(s)
  }

  /** A counter that is absent from the file counts as zero. */
  predicate CountAs(n: int, o: Option<nat>) {
    n == if o.Some? then o.value else 0
  }

  /** The file carries a denial; its reason is free text. */
  predicate DenialAs(d: Deny, e: S.Deny) {
    d.until == e.until && d.at == e.at && TextOf(d.ip) == e.ip
  }

  /** And a credential; its session identifier is never empty, and the reservation's is free text. */
  predicate CredAs(c: Cred, e: S.Cred) {
    && e.sessionId != "" && c.cid == e.customIdentifier && c.ip == e.ip && TextOf(c.principal) == e.principal
    && c.issuedAt == e.issuedAt
    && c.expiresAt == e.expiresAt && c.pessimistic == e.pessimistic && CountAs(c.cfActual, e.cfActual)
    && c.settled == e.settled && c.revokePending == e.revokePending && CountAs(c.revokeAttempts, e.revokeAttempts)
    && CountAs(c.lastAttemptAt, e.lastAttempt)
  }

  function ErrorText(error: ErrorCode): Option<string> {
    match error
    case NoError => None
    case Truncated => Some("ANALYTICS_TRUNCATED")
    case Provider(code) => Some(code)
  }

  predicate UsageAs(u: Usage, e: S.Usage) {
    && 0 <= u.month < MONTHS && MonthKey(u.month) == e.monthKey
    && u.bytes as real == e.bytes && u.cf as real == e.cf && u.pessimistic as real == e.pessimistic
    && u.fromProvider == e.fromProvider && u.lastSyncAt as real == e.lastSync && ErrorText(u.error) == e.error
    && u.truncated == e.truncated && u.killActive == e.killActive && u.killAt as real == e.killAt
  }

  predicate KeyedOnce<T>(entries: S.Entries<T>) {
    forall i, j :: 0 <= i < j < |entries| ==> entries[i].0 != entries[j].0
  }

  ghost predicate OfSome(text: string, deny: map<DenyKey, Deny>) {
    exists key :: key in deny && KeyText(key) == text
  }

  /** Every denial is written under its key, and nothing else is. */
  ghost predicate DenialsAs(deny: map<DenyKey, Deny>, entries: S.Entries<S.Deny>) {
    && KeyedOnce(entries)
    && (forall key :: key in deny ==>
          exists i :: 0 <= i < |entries| && entries[i].0 == KeyText(key) && DenialAs(deny[key], entries[i].1))
    && (forall i :: 0 <= i < |entries| ==> OfSome(entries[i].0, deny))
  }

  ghost predicate ActiveAs(t: Turn, entries: S.Entries<S.Cred>)
    requires Closed(t)
  {
    && KeyedOnce(entries)
    && (forall cid :: cid in t.active ==>
          exists i :: 0 <= i < |entries| && entries[i].0 == cid && CredAs(t.creds[t.active[cid]], entries[i].1))
    && (forall i :: 0 <= i < |entries| ==> entries[i].0 in t.active)
  }

  predicate RowAs(row: Row, e: S.Row) {
    row.ip == e.ip && row.bytes == e.bytes && row.at == e.at
  }

  predicate IssueAs(issue: Issue, e: S.Issue) {
    issue.ip == e.ip && issue.issuedAt == e.issuedAt
  }

  predicate RowsAs(ledger: seq<Row>, rows: seq<S.Row>) {
    |ledger| == |rows| && forall i :: 0 <= i < |rows| ==> RowAs(ledger[i], rows[i])
  }

  predicate IssuesAs(history: seq<Issue>, rows: seq<S.Issue>) {
    |history| == |rows| && forall i :: 0 <= i < |rows| ==> IssueAs(history[i], rows[i])
  }

  /** The snapshot `d` is the state `t`, written in some order: what the file holds after a write, and what
  memory holds after a load. */
  ghost predicate Written(t: Turn, d: S.Saved) {
    && Closed(t) && UsageAs(t.usage, d.usage) && ActiveAs(t, d.active) && IssuesAs(t.history, d.history)
    && DenialsAs(t.deny, d.deny) && RowsAs(t.ledger, d.ledger)
  }

  // ----- every state can be written -----

  /** Every time in the state is a time after the epoch. */
  predicate Dated(t: Turn)
    requires Closed(t)
  {
    && 0 <= t.usage.month < MONTHS
    && (forall key :: key in t.deny ==> t.deny[key].until >= 0 && t.deny[key].at >= 0)
    && (forall cid :: cid in t.active ==> DatedCred(t.creds[t.active[cid]]))
    && (forall i :: 0 <= i < |t.history| ==> t.history[i].issuedAt >= 0)
    && (forall i :: 0 <= i < |t.ledger| ==> t.ledger[i].at >= 0)
  }

  predicate DatedCred(c: Cred) {
    c.issuedAt >= 0 && c.expiresAt >= 0 && c.lastAttemptAt >= 0
  }

  predicate Somewhere<T>(entries: S.Entries<T>, key: string) {
    exists i :: 0 <= i < |entries| && entries[i].0 == key
  }

  ghost predicate Enumerates<T>(entries: S.Entries<T>, m: map<string, T>) {
    && KeyedOnce(entries)
    && (forall i :: 0 <= i < |entries| ==> entries[i].0 in m && m[entries[i].0] == entries[i].1)
    && (forall key :: key in m ==> Somewhere(entries, key))
  }

  lemma EnumerateNext<T>(rest: S.Entries<T>, m: map<string, T>, key: string)
    requires key in m && Enumerates(rest, m - {key})
    ensures Enumerates(rest + [(key, m[key])], m)
  {
    var entries := rest + [(key, m[key])];
    assert entries[|rest|] == (key, m[key]) && forall i :: 0 <= i < |rest| ==> entries[i] == rest[i];
    forall k | k in m ensures Somewhere(entries, k) {
      if k != key {
        assert k in m - {key};
        var i :| 0 <= i < |rest| && rest[i].0 == k;
        assert entries[i].0 == k;
      }
    }
  }

  lemma {:induction false} EveryMapIsEnumerated<T>(m: map<string, T>) returns (entries: S.Entries<T>)
    ensures Enumerates(entries, m)
    decreases |m|
  {
    entries := [];
    if m != map[] {
      var key :| key in m;
      entries := EveryMapIsEnumerated(m - {key});
      EnumerateNext(entries, m, key);
      entries := entries + [(key, m[key])];
    }
  }

  function DenyEntry(d: Deny): (e: S.Deny)
    requires d.until >= 0 && d.at >= 0
    ensures DenialAs(d, e)
  {
    S.Deny(d.until, d.at, "", TextOf(d.ip))
  }

  lemma ListsDenials(deny: map<DenyKey, Deny>) returns (entries: S.Entries<S.Deny>)
    requires forall key :: key in deny ==> deny[key].until >= 0 && deny[key].at >= 0
    ensures DenialsAs(deny, entries)
  {
    forall a, b | KeyText(a) == KeyText(b) ensures a == b {
      KeyTextIsInjective(a, b);
    }
    var texts := map key | key in deny :: KeyText(key) := DenyEntry(deny[key]);
    entries := EveryMapIsEnumerated(texts);
    forall key | key in deny
      ensures exists i :: 0 <= i < |entries| && entries[i].0 == KeyText(key) && DenialAs(deny[key], entries[i].1)
    {
      assert KeyText(key) in texts && texts[KeyText(key)] == DenyEntry(deny[key]);
      assert Somewhere(entries, KeyText(key));
    }
  }

  function CredEntry(c: Cred): (e: S.Cred)
    requires DatedCred(c)
    ensures CredAs(c, e)
  {
    S.Cred("s", c.cid, c.ip, TextOf(c.principal), c.issuedAt, c.expiresAt, c.pessimistic, Some(c.cfActual), None,
           c.settled, c.revokePending, Some(c.revokeAttempts), Some(c.lastAttemptAt))
  }

  lemma ListsActive(t: Turn) returns (entries: S.Entries<S.Cred>)
    requires Closed(t) && forall cid :: cid in t.active ==> DatedCred(t.creds[t.active[cid]])
    ensures ActiveAs(t, entries)
  {
    var records := map cid | cid in t.active :: CredEntry(t.creds[t.active[cid]]);
    entries := EveryMapIsEnumerated(records);
    forall cid | cid in t.active
      ensures exists i :: 0 <= i < |entries| && entries[i].0 == cid && CredAs(t.creds[t.active[cid]], entries[i].1)
    {
      assert Somewhere(entries, cid);
    }
  }

  function UsageEntry(u: Usage): S.Usage
    requires 0 <= u.month < MONTHS
  {
    S.Usage(MonthKey(u.month), u.bytes as real, u.cf as real, u.pessimistic as real, u.fromProvider,
            u.lastSyncAt as real, ErrorText(u.error), u.truncated, u.killActive, u.killAt as real)
  }

  lemma EveryStateIsWritten(t: Turn) returns (d: S.Saved)
    requires Closed(t) && Dated(t)
    ensures Written(t, d)
  {
    var deny := ListsDenials(t.deny);
    var active := ListsActive(t);
    var history := seq(|t.history|, i requires 0 <= i < |t.history| => S.Issue(t.history[i].ip, t.history[i].issuedAt));
    var ledger := seq(|t.ledger|,
      i requires 0 <= i < |t.ledger| => S.Row(t.ledger[i].ip, t.ledger[i].bytes, t.ledger[i].at));
    d := S.Saved(UsageEntry(t.usage), active, history, deny, ledger);
  }

  // ----- one file, one state -----

  lemma SameDenial(a: Deny, b: Deny, e: S.Deny)
    requires DenialAs(a, e) && DenialAs(b, e)
    ensures a == b
  {
  }

  lemma SameCred(a: Cred, b: Cred, e: S.Cred)
    requires CredAs(a, e) && CredAs(b, e)
    ensures a == b
  {
  }

  // A key that is written is a key of the state.
  lemma KeyIsThere(deny: map<DenyKey, Deny>, entries: S.Entries<S.Deny>, key: DenyKey, i: nat)
    requires DenialsAs(deny, entries) && i < |entries| && entries[i].0 == KeyText(key)
    ensures key in deny
  {
    var other :| other in deny && KeyText(other) == entries[i].0;
    KeyTextIsInjective(key, other);
  }

  lemma DenialsIn(a: map<DenyKey, Deny>, b: map<DenyKey, Deny>, entries: S.Entries<S.Deny>, key: DenyKey)
    requires DenialsAs(a, entries) && DenialsAs(b, entries) && key in a
    ensures key in b && b[key] == a[key]
  {
    var i :| 0 <= i < |entries| && entries[i].0 == KeyText(key) && DenialAs(a[key], entries[i].1);
    KeyIsThere(b, entries, key, i);
    var j :| 0 <= j < |entries| && entries[j].0 == KeyText(key) && DenialAs(b[key], entries[j].1);
    assert i == j;
    SameDenial(a[key], b[key], entries[i].1);
  }

  lemma SameDenials(a: map<DenyKey, Deny>, b: map<DenyKey, Deny>, entries: S.Entries<S.Deny>)
    requires DenialsAs(a, entries) && DenialsAs(b, entries)
    ensures a == b
  {
    forall key | key in a ensures key in b && b[key] == a[key] {
      DenialsIn(a, b, entries, key);
    }
    forall key | key in b ensures key in a {
      DenialsIn(b, a, entries, key);
    }
  }

  /** The same identifiers are active, with the same records, whatever references they have got. */
  ghost predicate SameActive(a: Turn, b: Turn) {
    && Closed(a) && Closed(b) && a.active.Keys == b.active.Keys
    && (forall cid :: cid in a.active ==> b.creds[b.active[cid]] == a.creds[a.active[cid]])
  }

  lemma ActiveIn(a: Turn, b: Turn, entries: S.Entries<S.Cred>, cid: string)
    requires Closed(a) && Closed(b) && ActiveAs(a, entries) && ActiveAs(b, entries) && cid in a.active
    ensures cid in b.active && b.creds[b.active[cid]] == a.creds[a.active[cid]]
  {
    var i :| 0 <= i < |entries| && entries[i].0 == cid && CredAs(a.creds[a.active[cid]], entries[i].1);
    assert entries[i].0 in b.active;
    var j :| 0 <= j < |entries| && entries[j].0 == cid && CredAs(b.creds[b.active[cid]], entries[j].1);
    assert i == j;
    SameCred(a.creds[a.active[cid]], b.creds[b.active[cid]], entries[i].1);
  }

  lemma SameActives(a: Turn, b: Turn, entries: S.Entries<S.Cred>)
    requires Closed(a) && Closed(b) && ActiveAs(a, entries) && ActiveAs(b, entries)
    ensures SameActive(a, b)
  {
    forall cid | cid in a.active ensures cid in b.active && b.creds[b.active[cid]] == a.creds[a.active[cid]] {
      ActiveIn(a, b, entries, cid);
    }
    forall cid | cid in b.active ensures cid in a.active {
      ActiveIn(b, a, entries, cid);
    }
    assert a.active.Keys == b.active.Keys;
  }

  /** Two states one file can stand for: the same but for references, and for how an error is told. */
  ghost predicate SameSaved(a: Turn, b: Turn) {
    && a.deny == b.deny && SameActive(a, b)
    && a.usage == b.usage.(error := a.usage.error) && ErrorText(a.usage.error) == ErrorText(b.usage.error)
    && |a.history| == |b.history|
    && (forall i :: 0 <= i < |a.history| ==> a.history[i] == b.history[i].(ref := a.history[i].ref))
    && |a.ledger| == |b.ledger|
    && (forall i :: 0 <= i < |a.ledger| ==> a.ledger[i] == b.ledger[i].(from := a.ledger[i].from))
  }

  lemma SameUsage(a: Usage, b: Usage, e: S.Usage)
    requires UsageAs(a, e) && UsageAs(b, e)
    ensures a == b.(error := a.error)
  {
    MonthKeyIsInjective(a.month, b.month);
  }

  lemma OneFileOneState(a: Turn, b: Turn, d: S.Saved)
    requires Written(a, d) && Written(b, d)
    ensures SameSaved(a, b)
  {
    SameDenials(a.deny, b.deny, d.deny);
    SameActives(a, b, d.active);
    SameUsage(a.usage, b.usage, d.usage);
  }
}
