/** validateTurnState of server/src/persist.ts: which parts of a parsed snapshot are dropped, which make the
whole file untrustworthy, and that what the server writes is read back unchanged. */
module Snapshot {

  import opened Common

  const MAX_STR_LEN := 256
  const MAX_IP_LEN := 64
  const MAX_CID_LEN := 64
  const MAX_PRINCIPAL_LEN := 64
  const SNAPSHOT_VERSION := 1

  /** A parsed JSON value as the validator tells them apart: whole numbers, finite ones that are not, and
  Other for every value of another kind. */
  datatype Field = Absent | Number(n: int) | Fraction(x: real) | Text(s: string) | Flag(b: bool) | Other

  /** A member of the file that should be an object or an array. */
  datatype Container<T> = Missing | Malformed | Listed(value: T)

  datatype RawUsage = NotAUsage | RawUsage(
    monthKey: Field, bytes: Field, cf: Field, pessimistic: Field, source: Field, lastSync: Field, error: Field,
    truncated: Field, killActive: Field, killAt: Field)

  datatype RawIssue = NotAnIssue | RawIssue(ip: Field, issuedAt: Field)

  datatype RawCred = NotARecord | RawCred(
    sessionId: Field, customIdentifier: Field, ip: Field, principal: Field, issuedAt: Field, expiresAt: Field,
    pessimistic: Field, cfActual: Field, reservationId: Field, settled: Field, revokePending: Field,
    revokeAttempts: Field, lastAttempt: Field)

  datatype RawDeny = NotADenial | RawDeny(until: Field, at: Field, reason: Field, ip: Field)

  datatype RawRow = NotARow | RawRow(ip: Field, bytes: Field, at: Field)

  datatype Usage = Usage(
    monthKey: string, bytes: real, cf: real, pessimistic: real, fromProvider: bool, lastSync: real,
    error: Option<string>, truncated: bool, killActive: bool, killAt: real)

  datatype Issue = Issue(ip: string, issuedAt: nat)

  datatype Cred = Cred(
    sessionId: string, customIdentifier: string, ip: string, principal: Option<string>, issuedAt: nat, expiresAt: nat,
    pessimistic: nat, cfActual: Option<nat>, reservationId: Option<string>, settled: bool, revokePending: bool,
    revokeAttempts: Option<nat>, lastAttempt: Option<nat>)

  datatype Deny = Deny(until: nat, at: nat, reason: string, ip: Option<string>)

  datatype Row = Row(ip: string, bytes: nat, at: nat)

  /** What becomes of one entry. */
  datatype Verdict<T> = Drop | Reject | Keep(value: T)

  // ----- fields -----

  predicate Counts(v: Field) {
    v.Number? && 0 <= v.n <= MAX_SAFE_INTEGER
  }

  /** Absent, or a safe non-negative integer. */
  predicate Sound(v: Field) {
    v.Absent? || Counts(v)
  }

  function CountOr(v: Field, fallback: nat): nat {
    if Counts(v) then v.n else fallback
  }

  function OptionalCount(v: Field): Option<nat> {
    if Counts(v) then Some(v.n) else None
  }

  predicate NonEmptyText(v: Field) {
    v.Text? && v.s != ""
  }

  function ShortText(v: Field, max: nat): Option<string> {
    if v.Text? && |v.s| <= max then Some(v.s) else None
  }

  // ----- the month -----

  predicate Digit(c: char) {
    '0' <= c <= '9'
  }

  /** Four digits, a dash and a month. */
  predicate IsMonthKey(s: string) {
    && |s| == 7 && Digit(s[0]) && Digit(s[1]) && Digit(s[2]) && Digit(s[3]) && s[4] == '-'
    && ((s[5] == '0' && '1' <= s[6] <= '9') || (s[5] == '1' && '0' <= s[6] <= '2'))
  }

  predicate Finite(v: Field) {
    v.Number? || v.Fraction?
  }

  function ValueOf(v: Field): real
    requires Finite(v)
  {
    if v.Number? then v.n as real else v.x
  }

  function FiniteOr(v: Field, fallback: real): real {
    if Finite(v) then ValueOf(v) else fallback
  }

  /** Everything a usage record must satisfy to be believed. */
  predicate UsageBelievable(raw: RawUsage) {
    && raw.RawUsage? && raw.monthKey.Text? && IsMonthKey(raw.monthKey.s)
    && (raw.bytes.Absent? || Finite(raw.bytes)) && (raw.cf.Absent? || Finite(raw.cf))
    && (raw.pessimistic.Absent? || Finite(raw.pessimistic)) && (raw.lastSync.Absent? || Finite(raw.lastSync))
    && (raw.killAt.Absent? || Finite(raw.killAt)) && (raw.killActive.Absent? || raw.killActive.Flag?)
    && FiniteOr(raw.bytes, 0.0) >= 0.0 && CfOf(raw) >= 0.0 && PessimisticOf(raw) >= 0.0
  }

  /** A file from before the two counters were told apart counts its bytes as the provider's if it had been
  in touch with the provider, and as the estimate otherwise. */
  function CfOf(raw: RawUsage): real
    requires raw.RawUsage?
  {
    FiniteOr(raw.cf, if FiniteOr(raw.lastSync, 0.0) > 0.0 then FiniteOr(raw.bytes, 0.0) else 0.0)
  }

  function PessimisticOf(raw: RawUsage): real
    requires raw.RawUsage?
  {
    FiniteOr(raw.pessimistic, if FiniteOr(raw.lastSync, 0.0) > 0.0 then 0.0 else FiniteOr(raw.bytes, 0.0))
  }

  function UsageOf(raw: RawUsage): Usage
    requires UsageBelievable(raw)
  {
    Usage(raw.monthKey.s, FiniteOr(raw.bytes, 0.0), CfOf(raw), PessimisticOf(raw), raw.source == Text("cloudflare"),
          FiniteOr(raw.lastSync, 0.0), if raw.error.Text? then Some(raw.error.s) else None, raw.truncated == Flag(true),
          raw.killActive == Flag(true), FiniteOr(raw.killAt, 0.0))
  }

  method ValidateUsage(raw: RawUsage) returns (usage: Option<Usage>)
    ensures usage == if UsageBelievable(raw) then Some(UsageOf(raw)) else None
  {
    if raw.NotAUsage? || !raw.monthKey.Text? || !IsMonthKey(raw.monthKey.s) {
      return None;
    }
    if !(raw.bytes.Absent? || Finite(raw.bytes)) || !(raw.lastSync.Absent? || Finite(raw.lastSync))
       || !(raw.killAt.Absent? || Finite(raw.killAt)) {
      return None;
    }
    if !raw.cf.Absent? && !Finite(raw.cf) {
      return None;
    }
    if !raw.pessimistic.Absent? && !Finite(raw.pessimistic) {
      return None;
    }
    if !raw.killActive.Absent? && !raw.killActive.Flag? {
      return None;
    }
    var bytes, lastSync := FiniteOr(raw.bytes, 0.0), FiniteOr(raw.lastSync, 0.0);
    var cf, pessimistic := bytes, 0.0;
    if lastSync <= 0.0 {
      cf, pessimistic := 0.0, bytes;
    }
    if Finite(raw.cf) {
      cf := ValueOf(raw.cf);
    }
    if Finite(raw.pessimistic) {
      pessimistic := ValueOf(raw.pessimistic);
    }
    if bytes < 0.0 || cf < 0.0 || pessimistic < 0.0 {
      return None;
    }
    return Some(Usage(raw.monthKey.s, bytes, cf, pessimistic, raw.source == Text("cloudflare"), lastSync,
                      if raw.error.Text? then Some(raw.error.s) else None, raw.truncated == Flag(true),
                      raw.killActive == Flag(true), FiniteOr(raw.killAt, 0.0)));
  }

  // ----- entries -----

  /** An entry that looks like a credential, under a usable key. */
  predicate CredShaped(cid: string, raw: RawCred) {
    0 < |cid| <= MAX_CID_LEN && raw.RawCred? && NonEmptyText(raw.sessionId) && NonEmptyText(raw.ip)
  }

  /** All its counters can be believed. */
  predicate CredBelievable(raw: RawCred)
    requires raw.RawCred? && raw.sessionId.Text? && raw.ip.Text?
  {
    && |raw.sessionId.s| <= MAX_STR_LEN && |raw.ip.s| <= MAX_IP_LEN
    && Sound(raw.issuedAt) && Sound(raw.expiresAt) && Sound(raw.pessimistic)
    && CountOr(raw.issuedAt, 0) <= CountOr(raw.expiresAt, 0)
    && Sound(raw.cfActual) && Sound(raw.revokeAttempts) && Sound(raw.lastAttempt)
  }

  function CredOf(cid: string, raw: RawCred): Cred
    requires CredShaped(cid, raw)
  {
    Cred(raw.sessionId.s,
         (match ShortText(raw.customIdentifier, MAX_CID_LEN) case Some(s) => s case None => cid),
         raw.ip.s,
         (if NonEmptyText(raw.principal) then ShortText(raw.principal, MAX_PRINCIPAL_LEN) else None),
         CountOr(raw.issuedAt, 0), CountOr(raw.expiresAt, 0), CountOr(raw.pessimistic, 0), OptionalCount(raw.cfActual),
         ShortText(raw.reservationId, MAX_STR_LEN), raw.settled == Flag(true), raw.revokePending == Flag(true),
         OptionalCount(raw.revokeAttempts), OptionalCount(raw.lastAttempt))
  }

  function JudgeCred(cid: string, raw: RawCred): Verdict<Cred> {
    if !CredShaped(cid, raw) then Drop
    else if !CredBelievable(raw) then Reject
    else Keep(CredOf(cid, raw))
  }

  function JudgeDeny(key: string, raw: RawDeny): Verdict<Deny> {
    if !(0 < |key| <= MAX_STR_LEN) || raw.NotADenial? || !Sound(raw.until) || !Sound(raw.at) then Drop
    else Keep(Deny(CountOr(raw.until, 0), CountOr(raw.at, 0),
                   if raw.reason.Text? then Cut(raw.reason.s) else "UNKNOWN", ShortText(raw.ip, MAX_IP_LEN)))
  }

  function Cut(s: string): string {
    if |s| <= MAX_STR_LEN then s else s[..MAX_STR_LEN]
  }

  function JudgeIssue(raw: RawIssue): Verdict<Issue> {
    if raw.NotAnIssue? || !NonEmptyText(raw.ip) || |raw.ip.s| > MAX_IP_LEN || !Sound(raw.issuedAt) then Drop
    else Keep(Issue(raw.ip.s, CountOr(raw.issuedAt, 0)))
  }

  function JudgeRow(raw: RawRow, cutoff: int): Verdict<Row> {
    if raw.NotARow? || !NonEmptyText(raw.ip) then Drop
    else if |raw.ip.s| > MAX_IP_LEN || !Counts(raw.bytes) || !Counts(raw.at) then Reject
    else if raw.at.n < cutoff then Drop
    else Keep(Row(raw.ip.s, raw.bytes.n, raw.at.n))
  }

  // ----- lists of verdicts -----

  predicate NoneRejected<T(==)>(verdicts: seq<Verdict<T>>) {
    forall i :: 0 <= i < |verdicts| ==> !verdicts[i].Reject?
  }

  function Kept<T>(verdicts: seq<Verdict<T>>): seq<T> {
    if verdicts == [] then []
    else
      var last := verdicts[|verdicts| - 1];
      Kept(verdicts[..|verdicts| - 1]) + (if last.Keep? then [last.value] else [])
  }

  lemma KeptNext<T>(verdicts: seq<Verdict<T>>, v: Verdict<T>)
    ensures Kept(verdicts + [v]) == Kept(verdicts) + (if v.Keep? then [v.value] else [])
  {
    assert (verdicts + [v])[..|verdicts|] == verdicts;
  }

  /** Entries under their keys, as the JSON object lists them. */
  type Entries<T> = seq<(string, T)>

  function JudgeCreds(raw: Entries<RawCred>): seq<Verdict<(string, Cred)>> {
    seq(|raw|, i requires 0 <= i < |raw| =>
      match JudgeCred(raw[i].0, raw[i].1) {
        case Keep(c) => Keep((raw[i].0, c))
        case Drop => Drop
        case Reject => Reject
      })
  }

  function JudgeDenials(raw: Entries<RawDeny>): seq<Verdict<(string, Deny)>> {
    seq(|raw|, i requires 0 <= i < |raw| =>
      match JudgeDeny(raw[i].0, raw[i].1) {
        case Keep(d) => Keep((raw[i].0, d))
        case Drop => Drop
        case Reject => Reject
      })
  }

  function JudgeRows(raw: seq<RawRow>, cutoff: int): seq<Verdict<Row>> {
    seq(|raw|, i requires 0 <= i < |raw| => JudgeRow(raw[i], cutoff))
  }

  function JudgeIssues(raw: seq<RawIssue>): seq<Verdict<Issue>> {
    seq(|raw|, i requires 0 <= i < |raw| => JudgeIssue(raw[i]))
  }

  datatype Parsed = NotASnapshot | Parsed(
    version: Field, usage: RawUsage, active: Container<Entries<RawCred>>, history: Container<seq<RawIssue>>,
    deny: Container<Entries<RawDeny>>, ledger: Container<seq<RawRow>>)

  datatype Saved = Saved(usage: Usage, active: Entries<Cred>, history: seq<Issue>, deny: Entries<Deny>,
    ledger: seq<Row>)

  /** The deny list and the ledger may be missing; the other members may not. */
  predicate WellShaped(p: Parsed) {
    && p.Parsed? && p.version == Number(SNAPSHOT_VERSION) && p.active.Listed? && p.history.Listed?
    && !p.deny.Malformed? && !p.ledger.Malformed?
  }

  function Denials(p: Parsed): Entries<RawDeny>
    requires p.Parsed?
  {
    if p.deny.Listed? then p.deny.value else []
  }

  function Ledger(p: Parsed): seq<RawRow>
    requires p.Parsed?
  {
    if p.ledger.Listed? then p.ledger.value else []
  }

  /** The file can be trusted. */
  ghost predicate Trusted(p: Parsed, now: int) {
    && WellShaped(p) && UsageBelievable(p.usage)
    && NoneRejected(JudgeCreds(p.active.value)) && NoneRejected(JudgeRows(Ledger(p), now - HOUR_MS))
  }

  /** A snapshot is believed whole, or not at all. */
  ghost function Validated(p: Parsed, now: int): Option<Saved> {
    if Trusted(p, now)
    then Some(Saved(UsageOf(p.usage), Kept(JudgeCreds(p.active.value)), Kept(JudgeIssues(p.history.value)),
                    Kept(JudgeDenials(Denials(p))), Kept(JudgeRows(Ledger(p), now - HOUR_MS))))
    else None
  }

  method ValidateActive(entries: Entries<RawCred>) returns (active: Option<Entries<Cred>>)
    ensures active == if NoneRejected(JudgeCreds(entries)) then Some(Kept(JudgeCreds(entries))) else None
  {
    ghost var all := JudgeCreds(entries);
    var kept: Entries<Cred> := [];
    for i := 0 to |entries|
      invariant NoneRejected(all[..i]) && kept == Kept(all[..i])
    {
      assert all[..i + 1] == all[..i] + [all[i]];
      KeptNext(all[..i], all[i]);
      var (cid, raw) := entries[i];
      match JudgeCred(cid, raw)
      case Reject => return None;
      case Drop =>
      case Keep(c) => kept := kept + [(cid, c)];
    }
    assert all[..|entries|] == all;
    return Some(kept);
  }

  method ValidateDenials(entries: Entries<RawDeny>) returns (deny: Entries<Deny>)
    ensures deny == Kept(JudgeDenials(entries))
  {
    ghost var all := JudgeDenials(entries);
    deny := [];
    for i := 0 to |entries|
      invariant deny == Kept(all[..i])
    {
      assert all[..i + 1] == all[..i] + [all[i]];
      KeptNext(all[..i], all[i]);
      match JudgeDeny(entries[i].0, entries[i].1)
      case Keep(d) => deny := deny + [(entries[i].0, d)];
      case Drop =>
      case Reject =>
    }
    assert all[..|entries|] == all;
  }

  method ValidateLedger(rows: seq<RawRow>, cutoff: int) returns (ledger: Option<seq<Row>>)
    ensures ledger == if NoneRejected(JudgeRows(rows, cutoff)) then Some(Kept(JudgeRows(rows, cutoff))) else None
  {
    ghost var all := JudgeRows(rows, cutoff);
    var kept: seq<Row> := [];
    for i := 0 to |rows|
      invariant NoneRejected(all[..i]) && kept == Kept(all[..i])
    {
      assert all[..i + 1] == all[..i] + [all[i]];
      KeptNext(all[..i], all[i]);
      match JudgeRow(rows[i], cutoff)
      case Reject => return None;
      case Drop =>
      case Keep(row) => kept := kept + [row];
    }
    assert all[..|rows|] == all;
    return Some(kept);
  }

  method ValidateHistory(rows: seq<RawIssue>) returns (history: seq<Issue>)
    ensures history == Kept(JudgeIssues(rows))
  {
    ghost var all := JudgeIssues(rows);
    history := [];
    for i := 0 to |rows|
      invariant history == Kept(all[..i])
    {
      assert all[..i + 1] == all[..i] + [all[i]];
      KeptNext(all[..i], all[i]);
      match JudgeIssue(rows[i])
      case Keep(issue) => history := history + [issue];
      case Drop =>
      case Reject =>
    }
    assert all[..|rows|] == all;
  }

  method ValidateTurnState(p: Parsed, now: int) returns (saved: Option<Saved>)
    ensures saved == Validated(p, now)
  {
    if p.NotASnapshot? || p.version != Number(SNAPSHOT_VERSION) {
      return None;
    }
    var usage := ValidateUsage(p.usage);
    if usage.None? || !p.active.Listed? || !p.history.Listed? || p.deny.Malformed? {
      return None;
    }
    var active := ValidateActive(p.active.value);
    if active.None? {
      return None;
    }
    var history := ValidateHistory(p.history.value);
    var deny := ValidateDenials(Denials(p));
    if p.ledger.Malformed? {
      return None;
    }
    var ledger := ValidateLedger(Ledger(p), now - HOUR_MS);
    if ledger.None? {
      return None;
    }
    return Some(Saved(usage.value, active.value, history, deny, ledger.value));
  }

  // ----- loading -----

  function Larger(x: real, y: real): real {
    if x < y then y else x
  }

  function FreshMonth(monthKey: string): Usage {
    Usage(monthKey, 0.0, 0.0, 0.0, false, 0.0, None, false, false, 0.0)
  }

  /** A file of an earlier month starts the current one; the observed bytes are the larger counter. */
  function CurrentUsage(u: Usage, monthKey: string): Usage {
    var rolled := if u.monthKey != monthKey then FreshMonth(monthKey) else u;
    rolled.(bytes := Larger(rolled.cf, rolled.pessimistic))
  }

  /** loadTurnState on a file that exists: what is in memory afterwards, or nothing if issuance stays off. */
  ghost function LoadedState(p: Parsed, now: int, monthKey: string): Option<Saved> {
    match Validated(p, now)
    case Some(saved) => Some(saved.(usage := CurrentUsage(saved.usage, monthKey)))
    case None => None
  }

  /** An accepted file never lowers the month's guard: the bytes counted after the load are at least what
  either counter said, and what the file said when it had neither; the switch stays as it was. */
  lemma MonthlyBytesSurvive(p: Parsed, now: int)
    requires Validated(p, now).Some?
    ensures p.usage.RawUsage? && p.usage.monthKey.Text?
    ensures var u := LoadedState(p, now, p.usage.monthKey.s).value.usage;
            && (Finite(p.usage.cf) ==> u.bytes >= ValueOf(p.usage.cf))
            && (Finite(p.usage.pessimistic) ==> u.bytes >= ValueOf(p.usage.pessimistic))
            && (p.usage.cf.Absent? && p.usage.pessimistic.Absent? ==> u.bytes == FiniteOr(p.usage.bytes, 0.0))
            && (u.killActive <==> p.usage.killActive == Flag(true))
  {
  }

  // ----- nothing that guards money is lost -----

  lemma {:induction false} KeptHolds<T>(verdicts: seq<Verdict<T>>, i: nat)
    requires i < |verdicts| && verdicts[i].Keep?
    ensures verdicts[i].value in Kept(verdicts)
  {
    if i < |verdicts| - 1 {
      KeptHolds(verdicts[..|verdicts| - 1], i);
    }
  }

  /** In an accepted snapshot every entry that looks like a credential is there with its own counters: it is
  never dropped, and one bad counter refuses the file. */
  lemma CredentialsAreNeverDropped(p: Parsed, now: int, i: nat)
    requires Validated(p, now).Some? && i < |p.active.value| && CredShaped(p.active.value[i].0, p.active.value[i].1)
    ensures var (cid, raw) := p.active.value[i];
            && CredBelievable(raw) && (cid, CredOf(cid, raw)) in Validated(p, now).value.active
            && CredOf(cid, raw).pessimistic == (if raw.pessimistic.Number? then raw.pessimistic.n else 0)
  {
    assert !JudgeCreds(p.active.value)[i].Reject?;
    KeptHolds(JudgeCreds(p.active.value), i);
  }

  /** What an entry of the file stands for in an IP's hourly bytes. */
  function RawShare(raw: RawRow, ip: string, cutoff: int): int {
    if raw.RawRow? && raw.ip == Text(ip) && raw.bytes.Number? && raw.at.Number? && raw.at.n >= cutoff then raw.bytes.n
      else 0
  }

  function RawBytes(raw: seq<RawRow>, ip: string, cutoff: int): int {
    if raw == [] then 0 else RawBytes(raw[..|raw| - 1], ip, cutoff) + RawShare(raw[|raw| - 1], ip, cutoff)
  }

  function RowBytes(rows: seq<Row>, ip: string): nat {
    if rows == [] then 0
    else RowBytes(rows[..|rows| - 1], ip) + (if rows[|rows| - 1].ip == ip then rows[|rows| - 1].bytes else 0)
  }

  lemma ShareKept(raw: RawRow, ip: string, cutoff: int)
    requires !JudgeRow(raw, cutoff).Reject? && ip != ""
    ensures var verdict := JudgeRow(raw, cutoff);
            RawShare(raw, ip, cutoff) == if verdict.Keep? && verdict.value.ip == ip then verdict.value.bytes else 0
  {
  }

  lemma RowBytesAppend(rows: seq<Row>, row: Row, ip: string)
    ensures RowBytes(rows + [row], ip) == RowBytes(rows, ip) + (if row.ip == ip then row.bytes else 0)
  {
    assert (rows + [row])[..|rows|] == rows;
  }

  lemma {:induction false} LedgerKeepsBytes(raw: seq<RawRow>, ip: string, cutoff: int)
    requires NoneRejected(JudgeRows(raw, cutoff)) && ip != ""
    ensures RowBytes(Kept(JudgeRows(raw, cutoff)), ip) == RawBytes(raw, ip, cutoff)
  {
    if raw != [] {
      var init, last := raw[..|raw| - 1], raw[|raw| - 1];
      var verdict := JudgeRow(last, cutoff);
      assert JudgeRows(raw, cutoff) == JudgeRows(init, cutoff) + [verdict];
      assert !JudgeRows(raw, cutoff)[|raw| - 1].Reject?;
      assert forall i :: 0 <= i < |init| ==> JudgeRows(init, cutoff)[i] == JudgeRows(raw, cutoff)[i];
      LedgerKeepsBytes(init, ip, cutoff);
      KeptNext(JudgeRows(init, cutoff), verdict);
      ShareKept(last, ip, cutoff);
      if verdict.Keep? {
        RowBytesAppend(Kept(JudgeRows(init, cutoff)), verdict.value, ip);
      } else {
        assert Kept(JudgeRows(init, cutoff)) + [] == Kept(JudgeRows(init, cutoff));
      }
    }
  }

  /** An accepted snapshot never lowers an IP's hourly bytes. */
  lemma HourlyBytesSurvive(p: Parsed, now: int, ip: string)
    requires Validated(p, now).Some? && ip != ""
    ensures RowBytes(Validated(p, now).value.ledger, ip) == RawBytes(Ledger(p), ip, now - HOUR_MS)
  {
    LedgerKeepsBytes(Ledger(p), ip, now - HOUR_MS);
  }

  // ----- what the server writes it reads back -----

  function TextOr(o: Option<string>): Field {
    match o case Some(s) => Text(s) case None => Absent
  }

  function NumberOr(o: Option<nat>): Field {
    match o case Some(n) => Number(n) case None => Absent
  }

  function WriteCred(c: Cred): RawCred {
    RawCred(Text(c.sessionId), Text(c.customIdentifier), Text(c.ip), TextOr(c.principal),
            Number(c.issuedAt), Number(c.expiresAt), Number(c.pessimistic), NumberOr(c.cfActual),
            TextOr(c.reservationId), if c.settled then Flag(true) else Absent,
            if c.revokePending then Flag(true) else Absent, NumberOr(c.revokeAttempts), NumberOr(c.lastAttempt))
  }

  function WriteDeny(d: Deny): RawDeny {
    RawDeny(Number(d.until), Number(d.at), Text(d.reason), TextOr(d.ip))
  }

  function WriteRow(r: Row): RawRow {
    RawRow(Text(r.ip), Number(r.bytes), Number(r.at))
  }

  function WriteRows(rows: seq<Row>): seq<RawRow> {
    seq(|rows|, i requires 0 <= i < |rows| => WriteRow(rows[i]))
  }

  function WriteReal(x: real): Field {
    if x.Floor as real == x then Number(x.Floor) else Fraction(x)
  }

  function WriteUsage(u: Usage): RawUsage {
    RawUsage(Text(u.monthKey), WriteReal(u.bytes), WriteReal(u.cf), WriteReal(u.pessimistic),
             Text(if u.fromProvider then "cloudflare" else "pessimistic"), WriteReal(u.lastSync), TextOr(u.error),
             if u.truncated then Flag(true) else Absent, Flag(u.killActive), WriteReal(u.killAt))
  }

  function WriteIssues(history: seq<Issue>): seq<RawIssue> {
    seq(|history|, i requires 0 <= i < |history| => RawIssue(Text(history[i].ip), Number(history[i].issuedAt)))
  }

  function WriteCreds(active: Entries<Cred>): Entries<RawCred> {
    seq(|active|, i requires 0 <= i < |active| => (active[i].0, WriteCred(active[i].1)))
  }

  function WriteDenials(deny: Entries<Deny>): Entries<RawDeny> {
    seq(|deny|, i requires 0 <= i < |deny| => (deny[i].0, WriteDeny(deny[i].1)))
  }

  function Write(s: Saved): Parsed {
    Parsed(Number(SNAPSHOT_VERSION), WriteUsage(s.usage), Listed(WriteCreds(s.active)), Listed(WriteIssues(s.history)),
           Listed(WriteDenials(s.deny)), Listed(WriteRows(s.ledger)))
  }

  // ----- what becomes of each entry -----

  predicate Safe(o: Option<nat>) {
    o.Some? ==> o.value <= MAX_SAFE_INTEGER
  }

  function IfShort(o: Option<string>, max: nat): Option<string> {
    if o.Some? && |o.value| <= max then o else None
  }

  /** The reader takes a written entry for a credential. */
  predicate ReadAsCred(e: (string, Cred)) {
    0 < |e.0| <= MAX_CID_LEN && e.1.sessionId != "" && e.1.ip != ""
  }

  /** And then believes it, or refuses the file. */
  predicate CredInBounds(c: Cred) {
    && |c.sessionId| <= MAX_STR_LEN && |c.ip| <= MAX_IP_LEN && c.issuedAt <= c.expiresAt <= MAX_SAFE_INTEGER
    && c.pessimistic <= MAX_SAFE_INTEGER && Safe(c.cfActual) && Safe(c.revokeAttempts) && Safe(c.lastAttempt)
  }

  /** What it makes of it: a text that is too long is left out, or replaced by the key. */
  function Reread(e: (string, Cred)): (string, Cred) {
    var principal := if e.1.principal == Some("") then None else IfShort(e.1.principal, MAX_PRINCIPAL_LEN);
    (e.0, e.1.(customIdentifier := if |e.1.customIdentifier| <= MAX_CID_LEN then e.1.customIdentifier else e.0,
               principal := principal, reservationId := IfShort(e.1.reservationId, MAX_STR_LEN)))
  }

  lemma CredVerdict(cid: string, c: Cred)
    ensures JudgeCred(cid, WriteCred(c))
      == if !ReadAsCred((cid, c)) then Drop else if !CredInBounds(c) then Reject else Keep(Reread((cid, c)).1)
  {
    if ReadAsCred((cid, c)) {
      assert CredBelievable(WriteCred(c)) <==> CredInBounds(c);
    }
  }

  predicate DenyInBounds(e: (string, Deny)) {
    0 < |e.0| <= MAX_STR_LEN && e.1.until <= MAX_SAFE_INTEGER && e.1.at <= MAX_SAFE_INTEGER
  }

  function RereadDeny(e: (string, Deny)): (string, Deny) {
    (e.0, e.1.(reason := Cut(e.1.reason), ip := IfShort(e.1.ip, MAX_IP_LEN)))
  }

  lemma DenyVerdict(key: string, d: Deny)
    ensures JudgeDeny(key, WriteDeny(d)) == if DenyInBounds((key, d)) then Keep(RereadDeny((key, d)).1) else Drop
  {
  }

  predicate IssueInBounds(i: Issue) {
    0 < |i.ip| <= MAX_IP_LEN && i.issuedAt <= MAX_SAFE_INTEGER
  }

  predicate RowInBounds(r: Row) {
    |r.ip| <= MAX_IP_LEN && r.bytes <= MAX_SAFE_INTEGER && r.at <= MAX_SAFE_INTEGER
  }

  function Since(cutoff: int): Row -> bool {
    (r: Row) => r.at >= cutoff
  }

  /** A row without an address is dropped. */
  function NamedSince(cutoff: int): Row -> bool {
    (r: Row) => r.at >= cutoff && r.ip != ""
  }

  lemma RowVerdict(r: Row, cutoff: int)
    ensures JudgeRow(WriteRow(r), cutoff)
      == if r.ip != "" && !RowInBounds(r) then Reject else if NamedSince(cutoff)(r) then Keep(r) else Drop
  {
  }

  predicate UsageInBounds(u: Usage) {
    IsMonthKey(u.monthKey) && u.bytes >= 0.0 && u.cf >= 0.0 && u.pessimistic >= 0.0
  }

  lemma RealReadsBack(x: real, fallback: real)
    ensures Finite(WriteReal(x)) && ValueOf(WriteReal(x)) == x && FiniteOr(WriteReal(x), fallback) == x
  {
  }

  lemma UsageVerdict(u: Usage)
    ensures UsageBelievable(WriteUsage(u)) <==> UsageInBounds(u)
    ensures UsageInBounds(u) ==> UsageOf(WriteUsage(u)) == u
  {
    RealReadsBack(u.bytes, 0.0);
    RealReadsBack(u.lastSync, 0.0);
    RealReadsBack(u.cf, if u.lastSync > 0.0 then u.bytes else 0.0);
    RealReadsBack(u.pessimistic, if u.lastSync > 0.0 then 0.0 else u.bytes);
    RealReadsBack(u.killAt, 0.0);
  }

  lemma {:induction false} KeptIsSelect<T>(verdicts: seq<Verdict<T>>, s: seq<T>, keep: T -> bool, f: T -> T)
    requires |verdicts| == |s|
    requires forall i :: 0 <= i < |s| ==> verdicts[i] == if keep(s[i]) then Keep(f(s[i])) else Drop
    ensures Kept(verdicts) == Select(s, keep, f)
  {
    if s != [] {
      KeptIsSelect(verdicts[..|s| - 1], s[..|s| - 1], keep, f);
    }
  }

  // ----- what the server writes it reads back -----

  /** The reader accepts the file as a whole: a credential or a ledger row out of bounds would refuse it. */
  ghost predicate Accepted(s: Saved) {
    && UsageInBounds(s.usage)
    && (forall i :: 0 <= i < |s.active| && ReadAsCred(s.active[i]) ==> CredInBounds(s.active[i].1))
    && (forall i :: 0 <= i < |s.ledger| && s.ledger[i].ip != "" ==> RowInBounds(s.ledger[i]))
  }

  /** What it keeps of an accepted file: denials and history rows out of bounds are dropped. */
  function Reading(s: Saved, cutoff: int): Saved {
    Saved(s.usage, Select(s.active, ReadAsCred, Reread), Select(s.history, IssueInBounds, Same),
          Select(s.deny, DenyInBounds, RereadDeny), Select(s.ledger, NamedSince(cutoff), Same))
  }

  lemma CredsAreRead(active: Entries<Cred>)
    ensures var verdicts := JudgeCreds(WriteCreds(active));
            var fine := forall i :: 0 <= i < |active| && ReadAsCred(active[i]) ==> CredInBounds(active[i].1);
            && (NoneRejected(verdicts) <==> fine)
            && (fine ==> Kept(verdicts) == Select(active, ReadAsCred, Reread))
  {
    var verdicts := JudgeCreds(WriteCreds(active));
    forall i | 0 <= i < |active|
      ensures verdicts[i] == if !ReadAsCred(active[i]) then Drop
                             else if !CredInBounds(active[i].1) then Reject
                             else Keep(Reread(active[i]))
    {
      assert WriteCreds(active)[i] == (active[i].0, WriteCred(active[i].1));
      CredVerdict(active[i].0, active[i].1);
    }
    if forall i :: 0 <= i < |active| && ReadAsCred(active[i]) ==> CredInBounds(active[i].1) {
      KeptIsSelect(verdicts, active, ReadAsCred, Reread);
    }
  }

  lemma DenialsAreRead(deny: Entries<Deny>)
    ensures Kept(JudgeDenials(WriteDenials(deny))) == Select(deny, DenyInBounds, RereadDeny)
  {
    var verdicts := JudgeDenials(WriteDenials(deny));
    forall i | 0 <= i < |deny|
      ensures verdicts[i] == if DenyInBounds(deny[i]) then Keep(RereadDeny(deny[i])) else Drop
    {
      assert WriteDenials(deny)[i] == (deny[i].0, WriteDeny(deny[i].1));
      DenyVerdict(deny[i].0, deny[i].1);
    }
    KeptIsSelect(verdicts, deny, DenyInBounds, RereadDeny);
  }

  lemma IssuesAreRead(history: seq<Issue>)
    ensures Kept(JudgeIssues(WriteIssues(history))) == Select(history, IssueInBounds, Same)
  {
    var verdicts := JudgeIssues(WriteIssues(history));
    forall i | 0 <= i < |history| ensures verdicts[i] == if IssueInBounds(history[i]) then Keep(history[i]) else Drop {
      assert WriteIssues(history)[i] == RawIssue(Text(history[i].ip), Number(history[i].issuedAt));
    }
    KeptIsSelect(verdicts, history, IssueInBounds, Same);
  }

  lemma RowsAreRead(rows: seq<Row>, cutoff: int)
    ensures var verdicts := JudgeRows(WriteRows(rows), cutoff);
            var fine := forall i :: 0 <= i < |rows| && rows[i].ip != "" ==> RowInBounds(rows[i]);
            && (NoneRejected(verdicts) <==> fine)
            && (fine ==> Kept(verdicts) == Select(rows, NamedSince(cutoff), Same))
  {
    var verdicts := JudgeRows(WriteRows(rows), cutoff);
    forall i | 0 <= i < |rows|
      ensures verdicts[i] == if rows[i].ip != "" && !RowInBounds(rows[i]) then Reject
                             else if NamedSince(cutoff)(rows[i]) then Keep(rows[i])
                             else Drop
    {
      assert WriteRows(rows)[i] == WriteRow(rows[i]);
      RowVerdict(rows[i], cutoff);
    }
    if forall i :: 0 <= i < |rows| && rows[i].ip != "" ==> RowInBounds(rows[i]) {
      KeptIsSelect(verdicts, rows, NamedSince(cutoff), Same);
    }
  }

  /** Exactly what the reader makes of any snapshot the server can write. */
  lemma WrittenIsRead(s: Saved, now: int)
    ensures Validated(Write(s), now) == if Accepted(s) then Some(Reading(s, now - HOUR_MS)) else None
  {
    UsageVerdict(s.usage);
    CredsAreRead(s.active);
    IssuesAreRead(s.history);
    DenialsAreRead(s.deny);
    RowsAreRead(s.ledger, now - HOUR_MS);
  }

  /** Every entry is kept, and as it was. */
  ghost predicate Unharmed(s: Saved, cutoff: int) {
    && (forall i :: 0 <= i < |s.active| ==> ReadAsCred(s.active[i]) && Reread(s.active[i]) == s.active[i])
    && (forall i :: 0 <= i < |s.history| ==> IssueInBounds(s.history[i]))
    && (forall i :: 0 <= i < |s.deny| ==> DenyInBounds(s.deny[i]) && RereadDeny(s.deny[i]) == s.deny[i])
    && (forall i :: 0 <= i < |s.ledger| && s.ledger[i].at >= cutoff ==> s.ledger[i].ip != "")
  }

  function LedgerSince(s: Saved, cutoff: int): Saved {
    s.(ledger := Select(s.ledger, Since(cutoff), Same))
  }

  lemma ReadingKeepsIff(s: Saved, cutoff: int)
    ensures Reading(s, cutoff) == LedgerSince(s, cutoff) <==> Unharmed(s, cutoff)
  {
    SelectsAllIff(s.active, ReadAsCred, Reread);
    SelectsAllIff(s.history, IssueInBounds, Same);
    SelectsAllIff(s.deny, DenyInBounds, RereadDeny);
    SelectionsAgreeIff(s.ledger, NamedSince(cutoff), Since(cutoff));
  }

  /** A written snapshot comes back as it was, but for ledger rows older than an hour, if and only if every
  entry is within the reader's bounds. */
  lemma ReadsBackIff(s: Saved, now: int)
    ensures Validated(Write(s), now) == Some(LedgerSince(s, now - HOUR_MS))
            <==> Accepted(s) && Unharmed(s, now - HOUR_MS)
  {
    WrittenIsRead(s, now);
    ReadingKeepsIff(s, now - HOUR_MS);
  }

  /** A file may be accepted and yet lose an entry: a history row with an address that is too long. */
  lemma AcceptedIsNotReadBack(monthKey: string, ip: string, at: nat, now: int)
    requires IsMonthKey(monthKey) && |ip| > MAX_IP_LEN
    ensures var s := Saved(FreshMonth(monthKey), [], [Issue(ip, at)], [], []);
            Accepted(s) && !Unharmed(s, now - HOUR_MS) && Validated(Write(s), now) == Some(s.(history := []))
  {
    var s := Saved(FreshMonth(monthKey), [], [Issue(ip, at)], [], []);
    assert !IssueInBounds(s.history[0]);
    WrittenIsRead(s, now);
    SelectNext([], s.history[0], IssueInBounds, Same);
    assert [] + s.history == s.history;
  }
}
