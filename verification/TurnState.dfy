/** TURN accounting state and the synchronous pieces of server/src/turn.ts that change it. */
module TurnState {

  import opened Common
  import opened Sums

  /** Identity of one credential record, unique per issuance: the source compares reservation ids
  where it must tell two records under one customIdentifier apart, and object identity elsewhere. */
  type Ref = nat

  datatype Config = Config(
    ttlMs: nat, reservation: nat, reuseFloorMs: nat,
    maxBytesPerSession: nat, maxBytesPerHourPerIp: nat, maxIssuePerHourPerIp: nat,
    monthlyLimit: nat, thresholdPct: nat, revokeAllOnKill: bool, banMs: int, ipBanStrikes: nat)

  datatype Cred = Cred(
    cid: string, ip: string, principal: string, issuedAt: int, expiresAt: int,
    pessimistic: nat, cfActual: nat, settled: bool,
    revokePending: bool, revokeAttempts: nat, lastAttemptAt: int)

  datatype ErrorCode = NoError | Truncated | Provider(code: string)

  datatype Usage = Usage(
    month: int, bytes: int, cf: int, pessimistic: int, fromProvider: bool, lastSyncAt: int,
    error: ErrorCode, truncated: bool, killActive: bool, killAt: int)

  datatype Issue = Issue(ip: string, issuedAt: int, ref: Ref)

  datatype Row = Row(ip: string, bytes: nat, at: int, from: Ref)

  datatype DenyKey = IpKey(ip: string) | PrincipalKey(principal: string) | CidKey(cid: string)

  datatype Deny = Deny(until: int, at: int, ip: string)

  datatype Cached = Cached(ref: Ref, expiresAt: int)

  /** Why a credential left the active set. */
  datatype Reason = Expired | Revoked | RolledBack | Replaced

  /** What happened since boot, kept only to state properties. */
  datatype Log = Log(
    booted: seq<Issue>,        // history rows restored from disk
    issues: seq<Issue>,        // issuances since boot that were not rolled back, in order
    open: set<Ref>,            // issuances whose provider call has not been answered
    pruned: int,               // everything in the history older than this has been forgotten
    base: int,                 // pessimistic bytes at boot
    corrections: nat,          // what usage polls added to the pessimistic bytes
    resets: nat,               // month rolls and authoritative syncs
    clears: nat,               // month rolls, and authoritative syncs that switched issuance back on
    written: seq<Ref>,         // the credential of every ledger row ever written
    gone: map<Ref, Reason>)

  datatype Turn = Turn(
    usage: Usage, active: map<string, Ref>, creds: map<Ref, Cred>, history: seq<Issue>,
    deny: map<DenyKey, Deny>, ledger: seq<Row>,
    cache: map<string, Cached>, inFlight: map<string, nat>, log: Log)

  // ----- usage -----

  predicate AtLimit(cfg: Config, u: Usage) {
    u.bytes * 100 >= cfg.monthlyLimit * cfg.thresholdPct
  }

  function WithPessimistic(u: Usage, pessimistic: int): Usage {
    u.(pessimistic := pessimistic, bytes := Max(u.cf, pessimistic))
  }

  function FreshMonth(month: int): Usage {
    Usage(month, 0, 0, 0, false, 0, NoError, false, false, 0)
  }

  function RollMonth(t: Turn, month: int): Turn {
    if t.usage.month == month then t
    else t.(usage := FreshMonth(month), log := t.log.(resets := t.log.resets + 1, clears := t.log.clears + 1))
  }

  // ----- pruning -----

  function IssuesFrom(history: seq<Issue>, cutoff: int): seq<Issue> {
    if history == [] then []
    else
      var init, last := IssuesFrom(history[..|history| - 1], cutoff), history[|history| - 1];
      if last.issuedAt >= cutoff then init + [last] else init
  }

  function RowsFrom(ledger: seq<Row>, cutoff: int): seq<Row> {
    if ledger == [] then []
    else
      var init, last := RowsFrom(ledger[..|ledger| - 1], cutoff), ledger[|ledger| - 1];
      if last.at >= cutoff then init + [last] else init
  }

  function WithoutIssue(history: seq<Issue>, ref: Ref): seq<Issue> {
    if history == [] then []
    else
      var init, last := WithoutIssue(history[..|history| - 1], ref), history[|history| - 1];
      if last.ref != ref then init + [last] else init
  }

  function PruneHistory(t: Turn, now: int): Turn {
    t.(history := IssuesFrom(t.history, now - HOUR_MS), log := t.log.(pruned := Max(t.log.pruned, now - HOUR_MS)))
  }

  function PruneLedger(t: Turn, now: int): Turn {
    t.(ledger := RowsFrom(t.ledger, now - HOUR_MS))
  }

  function PruneDenyList(t: Turn, now: int): Turn {
    t.(deny := map key | key in t.deny && t.deny[key].until > now :: t.deny[key])
  }

  // ----- settling and removing -----

  /** Folds a credential's confirmed bytes into the hourly ledger, once. */
  function Settle(t: Turn, ref: Ref, observed: nat, now: int): Turn
    requires ref in t.creds
  {
    var c := t.creds[ref];
    if c.settled then t
    else
      var bytes: nat := Max(observed, c.cfActual);
      var settled := t.(creds := t.creds[ref := c.(cfActual := bytes, settled := true)]);
      if bytes > 0
      then settled.(ledger := t.ledger + [Row(c.ip, bytes, now, ref)], log := t.log.(written := t.log.written + [ref]))
      else settled
  }

  /** Drops the entry under `cid`, whatever it is, together with its cached grant. */
  function Remove(t: Turn, cid: string, why: Reason): Turn {
    var log := if cid in t.active then t.log.(gone := t.log.gone[t.active[cid] := why]) else t.log;
    t.(active := t.active - {cid}, cache := t.cache - {cid}, log := log)
  }

  function MarkPending(t: Turn, ref: Ref, now: int): Turn
    requires ref in t.creds
  {
    var c := t.creds[ref];
    t.(creds := t.creds[ref := c.(revokePending := true, revokeAttempts := c.revokeAttempts + 1, lastAttemptAt := now)])
  }

  /** Every active entry and every captured record is in the table. */
  predicate Closed(t: Turn) {
    forall cid :: cid in t.active ==> t.active[cid] in t.creds
  }

  function ExpireOne(t: Turn, cid: string, now: int): (r: Turn)
    requires Closed(t)
    ensures Closed(r)
  {
    if cid in t.active && t.creds[t.active[cid]].expiresAt < now
    then Remove(Settle(t, t.active[cid], 0, now), cid, Expired)
    else t
  }

  /** pruneActiveCredentials, visiting the entries in the order `cids`. */
  function Expire(t: Turn, cids: seq<string>, now: int): (r: Turn)
    requires Closed(t)
    ensures Closed(r)
  {
    if cids == [] then t else ExpireOne(Expire(t, cids[..|cids| - 1], now), cids[|cids| - 1], now)
  }

  function MarkOne(t: Turn, cid: string, now: int): (r: Turn)
    requires Closed(t)
    ensures Closed(r)
  {
    if cid in t.active then MarkPending(Settle(t, t.active[cid], 0, now), t.active[cid], now) else t
  }

  /** The synchronous half of the kill-switch sweep: settle and queue every credential. */
  function MarkAll(t: Turn, cids: seq<string>, now: int): (r: Turn)
    requires Closed(t)
    ensures Closed(r)
  {
    if cids == [] then t else MarkOne(MarkAll(t, cids[..|cids| - 1], now), cids[|cids| - 1], now)
  }

  // ----- the kill switch -----

  predicate Trips(cfg: Config, u: Usage) {
    !u.killActive && AtLimit(cfg, u)
  }

  function Trip(cfg: Config, t: Turn, now: int): Turn {
    if Trips(cfg, t.usage) then t.(usage := t.usage.(killActive := true, killAt := now)) else t
  }

  /** evaluateGlobalKillSwitch up to the sweep's first await. */
  function EvaluateKillSwitch(cfg: Config, t: Turn, cids: seq<string>, now: int): (r: Turn)
    requires Closed(t)
    ensures Closed(r)
  {
    var tripped := Trip(cfg, t, now);
    if Trips(cfg, t.usage) && cfg.revokeAllOnKill then MarkAll(tripped, cids, now) else tripped
  }

  // ----- denial -----

  predicate Denied(t: Turn, key: DenyKey, now: int) {
    key in t.deny && t.deny[key].until > now
  }

  function Strikes(deny: map<DenyKey, Deny>, ip: string, now: int): nat {
    |set key | key in deny && key.PrincipalKey? && deny[key].ip == ip && deny[key].until > now|
  }

  function ApplyDeny(cfg: Config, t: Turn, principal: string, ip: string, cid: string, now: int): Turn {
    if cfg.banMs <= 0 then t
    else
      var entry := Deny(now + cfg.banMs, now, ip);
      var deny := t.deny[PrincipalKey(principal) := entry][CidKey(cid) := entry];
      t.(deny := if Strikes(deny, ip, now) >= cfg.ipBanStrikes then deny[IpKey(ip) := entry] else deny)
  }

  // ----- issuing -----

  /** The sweeps at the head of every request. */
  function Housekeep(t: Turn, month: int, cids: seq<string>, now: int): (r: Turn)
    requires Closed(t)
    ensures Closed(r)
  {
    PruneDenyList(PruneLedger(Expire(PruneHistory(RollMonth(t, month), now), cids, now), now), now)
  }

  datatype Gate = Exceeded | BannedIp | BannedSession | Join | Reuse | Fresh

  function GateOf(cfg: Config, t: Turn, cid: string, ip: string, principal: string, now: int): Gate {
    if t.usage.killActive then Exceeded
    else if Denied(t, IpKey(ip), now) then BannedIp
    else if Denied(t, PrincipalKey(principal), now) then BannedSession
    else if Denied(t, CidKey(cid), now) then BannedSession
    else if cid in t.inFlight then Join
    else if cid in t.cache && cid in t.active && t.active[cid] == t.cache[cid].ref
            && t.cache[cid].expiresAt - now > cfg.reuseFloorMs then Reuse
    else Fresh
  }

  function IssuedBy(history: seq<Issue>, ip: string, since: int): nat {
    if history == [] then 0
    else
      var last := history[|history| - 1];
      IssuedBy(history[..|history| - 1], ip, since) + (if last.ip == ip && last.issuedAt >= since then 1 else 0)
  }

  function LedgerBytes(ledger: seq<Row>, ip: string, since: int): nat {
    if ledger == [] then 0
    else
      var last := ledger[|ledger| - 1];
      LedgerBytes(ledger[..|ledger| - 1], ip, since) + (if last.ip == ip && last.at >= since then last.bytes else 0)
  }

  /** The estimates of an IP's active credentials. */
  ghost function ActiveBytes(active: map<string, Ref>, creds: map<Ref, Cred>, ip: string, since: int): int
    requires forall cid :: cid in active ==> active[cid] in creds
  {
    Total(Shares(active, creds, ip, since))
  }

  ghost function Shares(active: map<string, Ref>, creds: map<Ref, Cred>, ip: string, since: int): map<string, int>
    requires forall cid :: cid in active ==> active[cid] in creds
  {
    map cid | cid in active ::
      (var c := creds[active[cid]]; if c.ip == ip && c.issuedAt >= since then c.pessimistic else 0)
  }

  /** sumHourlyBytesForIp. */
  ghost function HourlyBytes(t: Turn, ip: string, now: int): int
    requires Closed(t)
  {
    ActiveBytes(t.active, t.creds, ip, now - HOUR_MS) + LedgerBytes(t.ledger, ip, now - HOUR_MS)
  }

  /** Both per-IP caps leave room for one more credential. */
  ghost predicate WithinIpCaps(cfg: Config, t: Turn, ip: string, now: int)
    requires Closed(t)
  {
    && IssuedBy(t.history, ip, now - HOUR_MS) < cfg.maxIssuePerHourPerIp
    && HourlyBytes(t, ip, now) < cfg.maxBytesPerHourPerIp
  }

  /** Reserves the quota of one credential, before the provider is asked for it. */
  function Reserve(cfg: Config, t: Turn, cid: string, ip: string, principal: string, now: int, ref: Ref): Turn {
    var usage := WithPessimistic(t.usage, t.usage.pessimistic + cfg.reservation);
    var issue := Issue(ip, now, ref);
    var log := t.log.(
      issues := t.log.issues + [issue], open := t.log.open + {ref},
      gone := if cid in t.active then t.log.gone[t.active[cid] := Replaced] else t.log.gone);
    t.(creds := t.creds[ref := Cred(cid, ip, principal, now, now + cfg.ttlMs, cfg.reservation, 0, false, false, 0, 0)],
       active := t.active[cid := ref], history := t.history + [issue], usage := usage, log := log)
  }

  /** Undoes one reservation, and only that one. */
  function Rollback(t: Turn, cid: string, ref: Ref, amount: nat): Turn {
    var own := cid in t.active && t.active[cid] == ref;
    var undone := if own then Remove(t, cid, RolledBack) else t;
    undone.(history := WithoutIssue(t.history, ref),
            usage := WithPessimistic(t.usage, Max(0, t.usage.pessimistic - amount)),
            log := undone.log.(issues := WithoutIssue(t.log.issues, ref), open := t.log.open - {ref}))
  }

  /** The provider answered: the grant is cached until the credential expires. */
  function Grant(t: Turn, cid: string, ref: Ref, expiresAt: int): Turn {
    t.(cache := t.cache[cid := Cached(ref, expiresAt)], log := t.log.(open := t.log.open - {ref}))
  }

  // ----- usage polls -----

  /** One row of a usage poll: confirmed bytes, and an upward correction of the estimate. */
  function Correct(t: Turn, cid: string, actual: nat): Turn
    requires cid in t.active && t.active[cid] in t.creds
  {
    var ref := t.active[cid];
    var c := t.creds[ref].(cfActual := actual);
    if actual <= c.pessimistic then t.(creds := t.creds[ref := c])
    else
      var delta := actual - c.pessimistic;
      t.(creds := t.creds[ref := c.(pessimistic := actual)],
         usage := WithPessimistic(t.usage, t.usage.pessimistic + delta),
         log := t.log.(corrections := t.log.corrections + delta))
  }

  function PrincipalOf(c: Cred, cid: string): string {
    if c.principal != "" then c.principal else "sess:" + cid
  }

  /** Everything the abuse path records before its first await: settle, deny, queue for revocation. */
  function Condemn(cfg: Config, t: Turn, cid: string, ref: Ref, actual: nat, now: int): Turn
    requires ref in t.creds
  {
    var settled := Settle(t, ref, actual, now);
    var c := settled.creds[ref];
    MarkPending(ApplyDeny(cfg, settled, PrincipalOf(c, cid), c.ip, cid, now), ref, now)
  }

  function SetTruncated(u: Usage, truncated: bool): Usage {
    if truncated then u.(truncated := true, error := Truncated)
    else if u.truncated then u.(truncated := false, error := if u.error.Truncated? then NoError else u.error)
    else u
  }

  function Estimates(t: Turn): map<string, int>
    requires Closed(t)
  {
    map cid | cid in t.active :: t.creds[t.active[cid]].pessimistic as int
  }

  ghost function ActivePessimistic(t: Turn): int
    requires Closed(t)
  {
    Total(Estimates(t))
  }

  /** A monthly total that is only a lower bound: counters may rise, nothing is cleared. */
  function ApplyLowerBound(u: Usage, total: int): Usage {
    var cf := Max(u.cf, total);
    SetTruncated(u, true).(cf := cf, bytes := Max(cf, u.pessimistic))
  }

  /** The authoritative monthly total, and the only thing besides a month roll that clears the switch. */
  function ApplyTotal(cfg: Config, u: Usage, total: int, activePessimistic: int, now: int): Usage {
    var synced := SetTruncated(u, false).(cf := total, pessimistic := activePessimistic,
                                          bytes := Max(total, activePessimistic), fromProvider := true,
                                          lastSyncAt := now, error := NoError);
    if synced.killActive && !AtLimit(cfg, synced) then synced.(killActive := false, killAt := 0) else synced
  }

  function Sync(cfg: Config, t: Turn, total: int, activePessimistic: int, now: int): Turn {
    var usage := ApplyTotal(cfg, t.usage, total, activePessimistic, now);
    var cleared := t.usage.killActive && !usage.killActive;
    t.(usage := usage,
       log := t.log.(resets := t.log.resets + 1,
                     clears := t.log.clears + (if cleared then 1 else 0)))
  }
}
