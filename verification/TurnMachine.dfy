/** TURN issuance as a machine of interleaved asynchronous tasks.

The server is single-threaded: between two awaits a function runs undisturbed, and at an await any
other task may run. A suspended function is a `Task` holding exactly what its closure captured; one
event starts a function or resumes one task with whatever its awaited call answered. */
module TurnMachine {

  import opened Common
  import opened TurnState

  datatype Task =
    // awaiting the provider's answer for a reserved credential
    | Issuing(cid: string, ref: Ref, expiresAt: int)
    // answered; its in-flight entry is about to be dropped
    | Returning(cid: string)
    // the retry loop, before its next entry, and awaiting one revoke
    | RetryNext(startedAt: int, queue: seq<(string, Ref)>)
    | RetryRevoking(startedAt: int, cid: string, ref: Ref, queue: seq<(string, Ref)>)
    // the usage poll, awaiting its pages, applying rows, and handling one abusive credential
    | Polling(generation: nat)
    | ApplyingRows(rows: seq<(string, nat)>)
    | AbuseFlushing(cid: string, ref: Ref, rows: seq<(string, nat)>)
    | AbuseRevoking(cid: string, ref: Ref, rows: seq<(string, nat)>)
    | AbuseReflushing(rows: seq<(string, nat)>)
    // the monthly poll, awaiting its total
    | Totalling(generation: nat, timed: bool)
    // the kill-switch sweep
    | SweepFlushing(cids: seq<string>)
    | SweepNext(cids: seq<string>)
    | SweepRevoking(cid: string, ref: Ref, cids: seq<string>)
    | SweepReflushing

  /** What an awaited call answers. `Continue` resumes a task that only yielded. */
  datatype Reply =
    | ProviderOk | ProviderFailed
    | Revoke(ok: bool)
    | Flush(ok: bool)
    | Rows(rows: seq<(string, nat)>, truncated: bool)
    | MonthTotal(total: nat, truncated: bool)
    | QueryFailed(code: string)
    | Continue

  datatype Sys = Sys(
    t: Turn, ready: bool, tasks: map<nat, Task>, nextId: nat,
    globalGeneration: nat, abuseGeneration: nat,
    globalBusy: bool, abuseBusy: bool, retryRunning: bool)

  /** The clock, the month it falls in, and the order in which the active entries are visited, before
  and after the step's own insertion. */
  datatype Env = Env(now: int, month: int, cids: seq<string>, sweepCids: seq<string>)

  datatype Event =
    | Request(cid: string, ip: string, principal: string)
    | StartRetry(pending: seq<(string, Ref)>)
    | StartAbusePoll
    | StartGlobalPoll
    | SyncNow
    | Resume(id: nat, reply: Reply)

  // ----- starting and ending tasks -----

  function Spawn(s: Sys, task: Task): Sys {
    s.(tasks := s.tasks[s.nextId := task], nextId := s.nextId + 1)
  }

  function End(s: Sys, id: nat): Sys {
    s.(tasks := s.tasks - {id})
  }

  function Go(s: Sys, id: nat, task: Task): Sys {
    s.(tasks := s.tasks[id := task])
  }

  function WithTurn(s: Sys, t: Turn): Sys {
    s.(t := t)
  }

  /** evaluateGlobalKillSwitch: trips the switch and, if so configured, starts the sweep. */
  function KillSwitch(cfg: Config, s: Sys, cids: seq<string>, now: int): Sys
    requires Closed(s.t)
  {
    var after := WithTurn(s, EvaluateKillSwitch(cfg, s.t, cids, now));
    if Trips(cfg, s.t.usage) && cfg.revokeAllOnKill then Spawn(after, SweepFlushing(cids)) else after
  }

  // ----- issuing -----

  ghost function StartFresh(cfg: Config, s: Sys, cid: string, ip: string, principal: string, env: Env): Sys
    requires Closed(s.t)
  {
    var id := s.nextId;
    var t := s.t.(cache := s.t.cache - {cid}, inFlight := s.t.inFlight[cid := id]);
    if !WithinIpCaps(cfg, s.t, ip, env.now) then Spawn(WithTurn(s, t), Returning(cid))
    else
      var issuing := Issuing(cid, id, env.now + cfg.ttlMs);
      KillSwitch(cfg, Spawn(WithTurn(s, Reserve(cfg, t, cid, ip, principal, env.now, id)), issuing), env.sweepCids,
        env.now)
  }

  function RequestPrincipal(cid: string, principal: string): string {
    if principal != "" then principal else "sess:" + cid
  }

  ghost function OnRequest(cfg: Config, s: Sys, cid: string, ip: string, principal: string, env: Env): Sys
    requires Closed(s.t)
  {
    if !s.ready then s
    else
      var swept := WithTurn(s, Housekeep(s.t, env.month, env.cids, env.now));
      var who := RequestPrincipal(cid, principal);
      if GateOf(cfg, swept.t, cid, ip, who, env.now).Fresh? then StartFresh(cfg, swept, cid, ip, who, env) else swept
  }

  /** Does this request reserve quota and call the provider? */
  ghost predicate Starts(cfg: Config, s: Sys, cid: string, ip: string, principal: string, env: Env)
    requires Closed(s.t)
  {
    && s.ready
    && var t := Housekeep(s.t, env.month, env.cids, env.now);
       GateOf(cfg, t, cid, ip, RequestPrincipal(cid, principal), env.now).Fresh? && WithinIpCaps(cfg, t, ip, env.now)
  }

  function OnIssued(cfg: Config, s: Sys, id: nat, task: Task, ok: bool): Sys
    requires task.Issuing?
  {
    var t := if ok then Grant(s.t, task.cid, task.ref, task.expiresAt)
             else Rollback(s.t, task.cid, task.ref, cfg.reservation);
    Go(WithTurn(s, t), id, Returning(task.cid))
  }

  function OnReturning(s: Sys, id: nat, cid: string): Sys {
    End(WithTurn(s, s.t.(inFlight := s.t.inFlight - {cid})), id)
  }

  // ----- retrying revokes -----

  function SettleAndRemove(t: Turn, cid: string, ref: Ref, why: Reason, now: int): Turn
    requires ref in t.creds
  {
    Remove(Settle(t, ref, 0, now), cid, why)
  }

  function OnRetryNext(s: Sys, id: nat, task: Task, now: int): Sys
    requires task.RetryNext? && (task.queue != [] ==> task.queue[0].1 in s.t.creds)
  {
    if task.queue == [] then End(s, id).(retryRunning := false)
    else
      var (cid, ref) := task.queue[0];
      if s.t.creds[ref].expiresAt < task.startedAt
      then Go(WithTurn(s, SettleAndRemove(s.t, cid, ref, Expired, now)), id, RetryNext(task.startedAt, task.queue[1..]))
      else Go(s, id, RetryRevoking(task.startedAt, cid, ref, task.queue[1..]))
  }

  function OnRetryRevoked(s: Sys, id: nat, task: Task, ok: bool, now: int): Sys
    requires task.RetryRevoking? && task.ref in s.t.creds
  {
    var c := s.t.creds[task.ref];
    var t := if ok then SettleAndRemove(s.t, task.cid, task.ref, Revoked, now)
             else s.t.(creds := s.t.creds[task.ref := c.(revokeAttempts := c.revokeAttempts + 1,
               lastAttemptAt := task.startedAt)]);
    Go(WithTurn(s, t), id, RetryNext(task.startedAt, task.queue))
  }

  // ----- the usage poll -----

  function OnPolled(s: Sys, id: nat, generation: nat, reply: Reply): Sys {
    if generation != s.abuseGeneration then End(s, id).(abuseBusy := false)
    else match reply
      case Rows(rows, truncated) =>
        Go(WithTurn(s, s.t.(usage := SetTruncated(s.t.usage, truncated))), id, ApplyingRows(rows))
      case QueryFailed(code) =>
        End(WithTurn(s, s.t.(usage := s.t.usage.(error := Provider(code)))), id).(abuseBusy := false)
      case _ => s
  }

  function OnRow(cfg: Config, s: Sys, id: nat, rows: seq<(string, nat)>, env: Env): Sys
    requires Closed(s.t)
  {
    if rows == [] then KillSwitch(cfg, End(s, id).(abuseBusy := false), env.sweepCids, env.now)
    else
      var (cid, actual) := rows[0];
      if cid !in s.t.active then Go(s, id, ApplyingRows(rows[1..]))
      else
        var ref := s.t.active[cid];
        var t := Correct(s.t, cid, actual);
        if actual >= cfg.maxBytesPerSession
        then Go(WithTurn(s, Condemn(cfg, t, cid, ref, actual, env.now)), id, AbuseFlushing(cid, ref, rows[1..]))
        else Go(WithTurn(s, t), id, ApplyingRows(rows[1..]))
  }

  /** The external revoke happens only after the strict flush succeeded. */
  function OnAbuseFlushed(s: Sys, id: nat, task: Task, ok: bool): Sys
    requires task.AbuseFlushing?
  {
    Go(s, id, if ok then AbuseRevoking(task.cid, task.ref, task.rows) else ApplyingRows(task.rows))
  }

  function OnAbuseRevoked(s: Sys, id: nat, task: Task, ok: bool, now: int): Sys
    requires task.AbuseRevoking? && task.ref in s.t.creds
  {
    if ok then Go(WithTurn(s, Remove(s.t, task.cid, Revoked)), id, ApplyingRows(task.rows))
    else Go(WithTurn(s, MarkPending(s.t, task.ref, now)), id, AbuseReflushing(task.rows))
  }

  // ----- the monthly poll -----

  function AppliedTotal(cfg: Config, t: Turn, total: nat, truncated: bool, activePessimistic: int, now: int): (r: Turn)
    requires Closed(t)
    ensures Closed(r)
  {
    if truncated then t.(usage := ApplyLowerBound(t.usage, total)) else Sync(cfg, t, total, activePessimistic, now)
  }

  ghost function OnTotal(cfg: Config, s: Sys, id: nat, task: Task, reply: Reply, env: Env): Sys
    requires Closed(s.t) && task.Totalling?
  {
    var ended := End(s, id).(globalBusy := s.globalBusy && !task.timed);
    if task.generation != s.globalGeneration then ended
    else match reply
      case QueryFailed(code) => WithTurn(ended, s.t.(usage := s.t.usage.(error := Provider(code))))
      case MonthTotal(total, truncated) =>
        var t := Expire(s.t, env.cids, env.now);
        var applied := WithTurn(ended, AppliedTotal(cfg, t, total, truncated, ActivePessimistic(t), env.now));
        KillSwitch(cfg, applied.(ready := applied.ready || !truncated), env.sweepCids, env.now)
      case _ => s
  }

  // ----- the kill-switch sweep -----

  function OnSweepNext(s: Sys, id: nat, cids: seq<string>): Sys {
    if cids == [] then Go(s, id, SweepReflushing)
    else if cids[0] !in s.t.active then Go(s, id, SweepNext(cids[1..]))
    else Go(s, id, SweepRevoking(cids[0], s.t.active[cids[0]], cids[1..]))
  }

  function OnSweepRevoked(s: Sys, id: nat, task: Task, ok: bool, now: int): Sys
    requires task.SweepRevoking? && task.ref in s.t.creds
  {
    var t := if ok then Remove(s.t, task.cid, Revoked) else MarkPending(s.t, task.ref, now);
    Go(WithTurn(s, t), id, SweepNext(task.cids))
  }

  // ----- the machine -----

  ghost predicate InTable(queue: seq<(string, Ref)>, t: Turn) {
    forall k :: 0 <= k < |queue| ==> queue[k].1 in t.creds
  }

  /** What a suspended task may rely on: the records it captured still exist, and a call to the
  provider is answered once, for the reservation made under its own id. */
  ghost predicate Captured(s: Sys, id: nat, task: Task) {
    match task
    case Issuing(_, ref, _) => ref == id && ref in s.t.creds && ref in s.t.log.open
    case RetryNext(_, queue) => InTable(queue, s.t)
    case RetryRevoking(_, _, ref, queue) => ref in s.t.creds && InTable(queue, s.t)
    case AbuseFlushing(_, ref, _) => ref in s.t.creds
    case AbuseRevoking(_, ref, _) => ref in s.t.creds
    case SweepRevoking(_, ref, _) => ref in s.t.creds
    case _ => true
  }

  ghost predicate WellFormed(s: Sys) {
    && Closed(s.t)
    && (forall ref :: ref in s.t.creds ==> ref < s.nextId)
    && (forall k :: 0 <= k < |s.t.log.booted| ==> s.t.log.booted[k].ref < s.nextId)
    && (forall k :: 0 <= k < |s.t.log.issues| ==> s.t.log.issues[k].ref < s.nextId)
    && (forall id :: id in s.tasks ==> id < s.nextId && Captured(s, id, s.tasks[id]))
  }

  /** `cids` visits every active entry once. */
  ghost predicate Visits(cids: seq<string>, t: Turn) {
    && (forall cid :: cid in cids <==> cid in t.active)
    && (forall i, j :: 0 <= i < j < |cids| ==> cids[i] != cids[j])
  }

  predicate Awaits(task: Task, reply: Reply) {
    match task
    case Issuing(_, _, _) => reply.ProviderOk? || reply.ProviderFailed?
    case RetryRevoking(_, _, _, _) => reply.Revoke?
    case Polling(_) => reply.Rows? || reply.QueryFailed?
    case AbuseFlushing(_, _, _) => reply.Flush?
    case AbuseRevoking(_, _, _) => reply.Revoke?
    case AbuseReflushing(_) => reply.Flush?
    case Totalling(_, _) => reply.MonthTotal? || reply.QueryFailed?
    case SweepFlushing(_) => reply.Flush?
    case SweepRevoking(_, _, _) => reply.Revoke?
    case SweepReflushing => reply.Flush?
    case _ => reply.Continue?
  }

  /** The active entries queued for revocation, as the retry loop snapshots them. */
  ghost predicate IsPendingQueue(queue: seq<(string, Ref)>, t: Turn) {
    && (forall k :: 0 <= k < |queue| ==>
          queue[k].0 in t.active && t.active[queue[k].0] == queue[k].1
          && queue[k].1 in t.creds && t.creds[queue[k].1].revokePending)
    && (forall cid :: cid in t.active && t.active[cid] in t.creds && t.creds[t.active[cid]].revokePending ==>
          (cid, t.active[cid]) in queue)
  }

  ghost predicate Enabled(s: Sys, e: Event) {
    match e
    case StartRetry(pending) => IsPendingQueue(pending, s.t)
    case Resume(id, reply) => id in s.tasks && Awaits(s.tasks[id], reply)
    case _ => true
  }

  ghost function OnResume(cfg: Config, s: Sys, id: nat, reply: Reply, env: Env): Sys
    requires WellFormed(s) && id in s.tasks && Awaits(s.tasks[id], reply)
  {
    var task := s.tasks[id];
    match task
    case Issuing(_, _, _) => OnIssued(cfg, s, id, task, reply.ProviderOk?)
    case Returning(cid) => OnReturning(s, id, cid)
    case RetryNext(_, _) => OnRetryNext(s, id, task, env.now)
    case RetryRevoking(_, _, _, _) => OnRetryRevoked(s, id, task, reply.ok, env.now)
    case Polling(generation) => OnPolled(s, id, generation, reply)
    case ApplyingRows(rows) => OnRow(cfg, s, id, rows, env)
    case AbuseFlushing(_, _, _) => OnAbuseFlushed(s, id, task, reply.ok)
    case AbuseRevoking(_, _, _) => OnAbuseRevoked(s, id, task, reply.ok, env.now)
    case AbuseReflushing(rows) => Go(s, id, ApplyingRows(rows))
    case Totalling(_, _) => OnTotal(cfg, s, id, task, reply, env)
    case SweepFlushing(cids) => if reply.ok then Go(s, id, SweepNext(cids)) else End(s, id)
    case SweepNext(cids) => OnSweepNext(s, id, cids)
    case SweepRevoking(_, _, _) => OnSweepRevoked(s, id, task, reply.ok, env.now)
    case SweepReflushing => End(s, id)
  }

  ghost function Apply(cfg: Config, s: Sys, e: Event, env: Env): Sys
    requires WellFormed(s) && Enabled(s, e)
  {
    match e
    case Request(cid, ip, principal) => OnRequest(cfg, s, cid, ip, principal, env)
    case StartRetry(pending) =>
      if s.retryRunning || pending == [] then s
      else Spawn(s, RetryNext(env.now, pending)).(retryRunning := true)
    case StartAbusePoll =>
      if s.abuseBusy then s
      else if s.t.active == map[] then s.(abuseGeneration := s.abuseGeneration + 1)
      else Spawn(s, Polling(s.abuseGeneration + 1)).(abuseGeneration := s.abuseGeneration + 1, abuseBusy := true)
    case StartGlobalPoll =>
      if s.globalBusy then s
      else Spawn(WithTurn(s, RollMonth(s.t, env.month)), Totalling(s.globalGeneration + 1, true))
           .(globalGeneration := s.globalGeneration + 1, globalBusy := true)
    case SyncNow =>
      Spawn(WithTurn(s, RollMonth(s.t, env.month)), Totalling(s.globalGeneration + 1, false))
      .(globalGeneration := s.globalGeneration + 1)
    case Resume(id, reply) => OnResume(cfg, s, id, reply, env)
  }

  /** One atomic step; an event that is not enabled changes nothing. */
  ghost function Step(cfg: Config, s: Sys, e: Event, env: Env): Sys {
    if WellFormed(s) && Enabled(s, e) then Apply(cfg, s, e, env) else s
  }

  // ----- runs -----

  datatype Trace = Booted(s: Sys, at: int) | After(before: Trace, event: Event, env: Env)

  ghost function Run(cfg: Config, t: Trace): Sys {
    match t
    case Booted(s, _) => s
    case After(before, e, env) => Step(cfg, Run(cfg, before), e, env)
  }

  function Now(t: Trace): int {
    match t
    case Booted(_, at) => at
    case After(_, _, env) => env.now
  }

  function Froms(ledger: seq<Row>): seq<Ref> {
    if ledger == [] then [] else Froms(ledger[..|ledger| - 1]) + [ledger[|ledger| - 1].from]
  }

  /** A freshly started process: nothing in flight, the month's counters in order, and at most one
  ledger row from each credential, which is settled; an entry's record carries its own identifier. */
  ghost predicate Boot(s: Sys, at: int) {
    && WellFormed(s) && s.tasks == map[] && s.t.cache == map[] && s.t.inFlight == map[]
    && s.t.usage.pessimistic >= 0 && s.t.usage.bytes == Max(s.t.usage.cf, s.t.usage.pessimistic)
    && s.t.log == Log(s.t.history, [], {}, s.t.log.pruned, s.t.usage.pessimistic, 0, 0, 0, s.t.log.written, map[])
    && s.t.log.pruned <= at - HOUR_MS && s.t.history == IssuesFrom(s.t.history, s.t.log.pruned)
    && (forall ref :: ref in s.t.log.written ==> ref in s.t.creds && s.t.creds[ref].settled)
    && Distinct(s.t.log.written) && Distinct(Froms(s.t.ledger))
    && (forall row :: row in s.t.ledger ==> row.from in s.t.log.written)
    && (forall cid :: cid in s.t.active ==> s.t.creds[s.t.active[cid]].cid == cid)
  }

  /** The clock never runs backwards, and the sweeps visit every active entry once. */
  ghost predicate Possible(cfg: Config, t: Trace) {
    match t
    case Booted(s, at) => Boot(s, at)
    case After(before, e, env) =>
      && Possible(cfg, before)
      && Now(before) <= env.now
      && Visits(env.cids, Run(cfg, before).t)
      && Visits(env.sweepCids, Run(cfg, t).t)
  }
}
