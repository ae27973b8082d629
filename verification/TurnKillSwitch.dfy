/** The global kill switch: what it measures, what turns it off, and how little can be spent past it. */
module TurnKillSwitch {

  import opened Common
  import opened TurnState
  import opened TurnMachine
  import opened TurnOps
  import opened TurnRuns

  /** Observed usage is the larger of the provider's figure and the reserved estimate. */
  ghost predicate Measured(t: Turn) {
    t.usage.bytes == Max(t.usage.cf, t.usage.pessimistic)
  }

  lemma OpKeepsMeasured(cfg: Config, t: Turn, op: Op, at: At)
    requires May(cfg, t, op, at) && Measured(t)
    ensures Measured(Do(cfg, t, op, at))
  {
  }

  lemma UsageIsMeasured(cfg: Config, t: Trace)
    requires Possible(cfg, t)
    ensures Run(cfg, t).t.usage.bytes == Max(Run(cfg, t).t.usage.cf, Run(cfg, t).t.usage.pessimistic)
  {
    forall at, x, op | Measured(x) && May(cfg, x, op, at) ensures Measured(Do(cfg, x, op, at)) {
      OpKeepsMeasured(cfg, x, op, at);
    }
    RunKeeps(cfg, t, Measured);
  }

  // ----- what clears the switch -----

  ghost predicate Armed(t: Turn, clears: nat) {
    clears <= t.log.clears && (t.log.clears == clears ==> t.usage.killActive)
  }

  lemma OpKeepsArmed(cfg: Config, t: Turn, op: Op, at: At, clears: nat)
    requires May(cfg, t, op, at)
    ensures Armed(t, clears) ==> Armed(Do(cfg, t, op, at), clears)
    ensures t.log.clears <= Do(cfg, t, op, at).log.clears
    ensures !at.rolls && !at.syncs ==> Do(cfg, t, op, at).log.clears == t.log.clears
  {
  }

  lemma StepKeepsArmed(cfg: Config, s: Sys, e: Event, env: Env, clears: nat)
    requires WellFormed(s)
    ensures Armed(s.t, clears) ==> Armed(Step(cfg, s, e, env).t, clears)
    ensures s.t.log.clears <= Step(cfg, s, e, env).t.log.clears
  {
    var at := AtStep(cfg, s, e, env);
    forall t, op | May(cfg, t, op, at)
      ensures Armed(t, clears) ==> Armed(Do(cfg, t, op, at), clears)
      ensures s.t.log.clears <= t.log.clears ==> s.t.log.clears <= Do(cfg, t, op, at).log.clears
    {
      OpKeepsArmed(cfg, t, op, at, clears);
    }
    if Armed(s.t, clears) {
      StepKeeps(cfg, s, e, env, t => Armed(t, clears));
    }
    StepKeeps(cfg, s, e, env, (t: Turn) => s.t.log.clears <= t.log.clears);
  }

  lemma OtherStepsClearNothing(cfg: Config, s: Sys, e: Event, env: Env)
    requires WellFormed(s) && e.Resume? && !IsCompleteTotal(s, e)
    ensures Step(cfg, s, e, env).t.log.clears == s.t.log.clears
  {
    var at := AtStep(cfg, s, e, env);
    forall t, op | May(cfg, t, op, at) && t.log.clears == s.t.log.clears
      ensures Do(cfg, t, op, at).log.clears == s.t.log.clears
    {
      OpKeepsArmed(cfg, t, op, at, 0);
    }
    StepKeeps(cfg, s, e, env, (t: Turn) => t.log.clears == s.t.log.clears);
  }

  /** The kill switch turns off only when the month rolls over, or when a complete total of the current
  poll generation puts the observed bytes below the limit. */
  lemma WhatTurnsTheSwitchOff(cfg: Config, s: Sys, e: Event, env: Env)
    requires WellFormed(s) && s.t.usage.killActive && !Step(cfg, s, e, env).t.usage.killActive
    ensures if IsCompleteTotal(s, e) then
              !AtLimit(cfg, Step(cfg, s, e, env).t.usage) && Step(cfg, s, e, env).t.usage.cf == e.reply.total
            else !e.Resume? && env.month != s.t.usage.month
  {
    StepKeepsArmed(cfg, s, e, env, s.t.log.clears);
    if e.Resume? {
      if IsCompleteTotal(s, e) {
        CompleteTotalTurnsOff(cfg, s, e, env);
      } else {
        OtherStepsClearNothing(cfg, s, e, env);
      }
    } else if env.month == s.t.usage.month {
      SameMonthKeepsSwitch(cfg, s, e, env);
    }
  }

  lemma CompleteTotalTurnsOff(cfg: Config, s: Sys, e: Event, env: Env)
    requires WellFormed(s) && IsCompleteTotal(s, e) && !Step(cfg, s, e, env).t.usage.killActive
    ensures !AtLimit(cfg, Step(cfg, s, e, env).t.usage) && Step(cfg, s, e, env).t.usage.cf == e.reply.total
  {
    var t := Expire(s.t, env.cids, env.now);
    var synced := AppliedTotal(cfg, t, e.reply.total, false, ActivePessimistic(t), env.now);
    SwitchMeasures(cfg, synced, env.sweepCids, env.now);
  }

  /** Evaluating the switch changes nothing else in the usage record, and leaves it on at the limit. */
  lemma SwitchMeasures(cfg: Config, t: Turn, cids: seq<string>, now: int)
    requires Closed(t)
    ensures var r := EvaluateKillSwitch(cfg, t, cids, now);
            && r.usage == t.usage.(killActive := r.usage.killActive, killAt := r.usage.killAt)
            && (r.usage.killActive <==> t.usage.killActive || AtLimit(cfg, t.usage))
            && r.log.clears == t.log.clears
  {
    MarkAllAddsNothing(Trip(cfg, t, now), cids, now);
  }

  lemma SameMonthKeepsSwitch(cfg: Config, s: Sys, e: Event, env: Env)
    requires WellFormed(s) && !e.Resume? && env.month == s.t.usage.month && s.t.usage.killActive
    ensures Step(cfg, s, e, env).t.usage.killActive
  {
    if e.Request? {
      HousekeepAddsNothing(s.t, env.month, env.cids, env.now);
    }
  }

  /** A total that is only a lower bound never lowers a counter and never turns the switch off. */
  lemma LowerBoundOnlyRaises(cfg: Config, s: Sys, id: nat, total: nat, env: Env)
    requires WellFormed(s) && Measured(s.t) && id in s.tasks && s.tasks[id].Totalling?
    ensures var before := s.t.usage;
            var after := OnTotal(cfg, s, id, s.tasks[id], MonthTotal(total, true), env).t.usage;
            && before.cf <= after.cf && before.pessimistic == after.pessimistic && before.bytes <= after.bytes
            && (before.killActive ==> after.killActive)
            && (s.tasks[id].generation == s.globalGeneration ==>
                  after.cf == Max(before.cf, total) && after.truncated && (AtLimit(cfg, after) ==> after.killActive))
  {
    ExpireAddsNothing(s.t, env.cids, env.now);
    var t := Expire(s.t, env.cids, env.now);
    SwitchMeasures(cfg, AppliedTotal(cfg, t, total, true, ActivePessimistic(t), env.now), env.sweepCids, env.now);
  }

  // ----- at most one crossing -----

  ghost predicate Starting(cfg: Config, t: Trace) {
    && t.After? && t.event.Request? && WellFormed(Run(cfg, t.before))
    && Starts(cfg, Run(cfg, t.before), t.event.cid, t.event.ip, t.event.principal, t.env)
  }

  /** This run's last step starts an issuance and leaves usage at or above the limit. */
  ghost predicate Crossing(cfg: Config, t: Trace) {
    Starting(cfg, t) && AtLimit(cfg, Run(cfg, t).t.usage)
  }

  predicate Prefix(t: Trace, u: Trace) {
    t == u || (u.After? && Prefix(t, u.before))
  }

  lemma CrossingTrips(cfg: Config, t: Trace)
    requires Crossing(cfg, t)
    ensures Run(cfg, t).t.usage.killActive
  {
    var s := Run(cfg, t.before);
    var (cid, ip) := (t.event.cid, t.event.ip);
    var swept := Housekeep(s.t, t.env.month, t.env.cids, t.env.now);
    var who := RequestPrincipal(cid, t.event.principal);
    var started := swept.(cache := swept.cache - {cid}, inFlight := swept.inFlight[cid := s.nextId]);
    SwitchMeasures(cfg, Reserve(cfg, started, cid, ip, who, t.env.now, s.nextId), t.env.sweepCids, t.env.now);
  }

  lemma StartNeedsTheSwitchOff(cfg: Config, t: Trace)
    requires Starting(cfg, t) && Run(cfg, t.before).t.usage.killActive
    ensures Run(cfg, t).t.log.clears > Run(cfg, t.before).t.log.clears
  {
    var s := Run(cfg, t.before);
    HousekeepAddsNothing(s.t, t.env.month, t.env.cids, t.env.now);
    var swept := Housekeep(s.t, t.env.month, t.env.cids, t.env.now);
    assert swept.log.clears == s.t.log.clears + 1;
    StartClearsNothing(cfg, WithTurn(s, swept), t.event.cid, t.event.ip,
      RequestPrincipal(t.event.cid, t.event.principal), t.env);
  }

  lemma StartClearsNothing(cfg: Config, s: Sys, cid: string, ip: string, principal: string, env: Env)
    requires Closed(s.t)
    ensures StartFresh(cfg, s, cid, ip, principal, env).t.log.clears == s.t.log.clears
  {
    var t := s.t.(cache := s.t.cache - {cid}, inFlight := s.t.inFlight[cid := s.nextId]);
    SwitchMeasures(cfg, Reserve(cfg, t, cid, ip, principal, env.now, s.nextId), env.sweepCids, env.now);
  }

  lemma {:induction false} StaysArmed(cfg: Config, t: Trace, u: Trace)
    requires Possible(cfg, u) && Prefix(t, u) && Run(cfg, t).t.usage.killActive
    ensures Armed(Run(cfg, u).t, Run(cfg, t).t.log.clears)
  {
    if t != u {
      StaysArmed(cfg, t, u.before);
      RunHealthy(cfg, u.before);
      StepKeepsArmed(cfg, Run(cfg, u.before), u.event, u.env, Run(cfg, t).t.log.clears);
    }
  }

  /** Between two clears at most one issuance leaves usage at or above the limit, and nothing is started
  after it: whatever runs in between, a later start has a month roll or a complete total before it. */
  lemma OneCrossingPerClear(cfg: Config, t: Trace, u: Trace)
    requires Possible(cfg, u) && Crossing(cfg, t) && Starting(cfg, u) && Prefix(t, u.before)
    ensures Run(cfg, u).t.log.clears > Run(cfg, t).t.log.clears
  {
    CrossingTrips(cfg, t);
    StaysArmed(cfg, t, u.before);
    RunHealthy(cfg, u.before);
    StepKeepsArmed(cfg, Run(cfg, u.before), u.event, u.env, Run(cfg, t).t.log.clears);
    if Run(cfg, u.before).t.usage.killActive {
      StartNeedsTheSwitchOff(cfg, u);
    }
  }

  // ----- the sweep -----

  ghost predicate Condemned(t: Turn, cid: string) {
    cid in t.active && t.active[cid] in t.creds && t.creds[t.active[cid]].settled
    && t.creds[t.active[cid]].revokePending
  }

  lemma {:induction false} MarkAllCondemns(t: Turn, cids: seq<string>, now: int)
    requires Closed(t)
    ensures MarkAll(t, cids, now).active == t.active
    ensures forall cid ::
              cid in t.active && (cid in cids || Condemned(t, cid)) ==> Condemned(MarkAll(t, cids, now), cid)
  {
    if cids != [] {
      var init, last := cids[..|cids| - 1], cids[|cids| - 1];
      MarkAllCondemns(t, init, now);
      var before := MarkAll(t, init, now);
      MarkOneCondemns(before, last, now);
      assert cids == init + [last];
    }
  }

  lemma MarkOneCondemns(t: Turn, cid: string, now: int)
    requires Closed(t)
    ensures MarkOne(t, cid, now).active == t.active
    ensures cid in t.active ==> Condemned(MarkOne(t, cid, now), cid)
    ensures forall c :: Condemned(t, c) ==> Condemned(MarkOne(t, cid, now), c)
  {
  }

  /** When the switch trips and is set to revoke, every active credential is settled and queued for
  revocation before anything external is called. */
  lemma TrippingCondemnsEverything(cfg: Config, t: Turn, cids: seq<string>, now: int)
    requires Closed(t) && Trips(cfg, t.usage) && cfg.revokeAllOnKill && Visits(cids, t)
    ensures var r := EvaluateKillSwitch(cfg, t, cids, now);
            r.active == t.active && forall cid :: cid in r.active ==> Condemned(r, cid)
  {
    MarkAllCondemns(Trip(cfg, t, now), cids, now);
  }
}
