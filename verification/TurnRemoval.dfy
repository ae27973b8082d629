/** Removal after a revoke: what the abuse path and the kill-switch sweep delete was settled before, unless
it was issued in the meantime. */
module TurnRemoval {

  import opened TurnState
  import opened TurnMachine
  import opened TurnOps
  import opened TurnRuns
  import opened TurnSettlement
  import opened TurnKillSwitch
  import TurnCrash

  // ----- what a step may do to entries and settled records -----

  predicate SettledIn(t: Turn, ref: Ref) {
    ref in t.creds && t.creds[ref].settled
  }

  /** No record is unsettled, and an entry is the one that was there or the step's own. */
  ghost predicate Moved(t0: Turn, at: At, t: Turn) {
    && (forall ref :: SettledIn(t0, ref) ==> SettledIn(t, ref))
    && (forall cid ::
          cid in t.active ==> (cid in t0.active && t.active[cid] == t0.active[cid]) || t.active[cid] == at.newRef)
  }

  lemma OpSettles(cfg: Config, t: Turn, op: Op, at: At)
    requires May(cfg, t, op, at)
    ensures forall ref :: SettledIn(t, ref) ==> SettledIn(Do(cfg, t, op, at), ref)
  {
    if KeepsSettled(op) {
      OthersLeaveTheLedger(cfg, t, op, at);
    }
  }

  lemma OpActivates(cfg: Config, t: Turn, op: Op, at: At)
    requires May(cfg, t, op, at)
    ensures forall cid :: cid in Do(cfg, t, op, at).active ==>
              (cid in t.active && Do(cfg, t, op, at).active[cid] == t.active[cid])
              || Do(cfg, t, op, at).active[cid] == at.newRef
  {
    if Bookkeeping(op) {
      BookkeepingLeaves(cfg, t, op, at);
    } else if !op.ReserveOp? {
      OthersActivateNothing(cfg, t, op, at);
    }
  }

  lemma StepMoves(cfg: Config, s: Sys, e: Event, env: Env)
    requires WellFormed(s)
    ensures Moved(s.t, AtStep(cfg, s, e, env), Step(cfg, s, e, env).t)
  {
    var at := AtStep(cfg, s, e, env);
    forall t, op | Moved(s.t, at, t) && May(cfg, t, op, at) ensures Moved(s.t, at, Do(cfg, t, op, at)) {
      OpSettles(cfg, t, op, at);
      OpActivates(cfg, t, op, at);
    }
    StepKeeps(cfg, s, e, env, t => Moved(s.t, at, t));
  }

  // ----- the abuse path -----

  /** Whatever the abuse path is about to revoke is settled. */
  ghost predicate AbuseSettled(s: Sys) {
    forall i :: i in s.tasks && TurnCrash.Abuse(s.tasks[i]) ==> SettledIn(s.t, s.tasks[i].ref)
  }

  lemma CondemnSettles(cfg: Config, t: Turn, cid: string, ref: Ref, actual: nat, now: int)
    requires ref in t.creds
    ensures SettledIn(Condemn(cfg, t, cid, ref, actual, now), ref)
  {
    var settled := Settle(t, ref, actual, now);
    assert SettledIn(settled, ref);
    var c := settled.creds[ref];
    assert ApplyDeny(cfg, settled, PrincipalOf(c, cid), c.ip, cid, now).creds == settled.creds;
  }

  lemma StepAbuseSettled(cfg: Config, s: Sys, e: Event, env: Env)
    requires Healthy(s) && AbuseSettled(s)
    ensures AbuseSettled(Step(cfg, s, e, env))
  {
    if Enabled(s, e) {
      var r := Step(cfg, s, e, env);
      StepMoves(cfg, s, e, env);
      forall i | i in r.tasks && TurnCrash.Abuse(r.tasks[i]) ensures SettledIn(r.t, r.tasks[i].ref) {
        if TurnCrash.Condemns(cfg, s, e, env) {
          CondemnedSettled(cfg, s, e, env, i);
        } else {
          TurnCrash.AbuseOrigin(cfg, s, e, env, i);
        }
      }
    }
  }

  lemma CondemnedSettled(cfg: Config, s: Sys, e: Event, env: Env, i: nat)
    requires AbuseSettled(s) && TurnCrash.Condemns(cfg, s, e, env)
             && Moved(s.t, AtStep(cfg, s, e, env), Step(cfg, s, e, env).t)
    requires i in Step(cfg, s, e, env).tasks && TurnCrash.Abuse(Step(cfg, s, e, env).tasks[i])
    ensures SettledIn(Step(cfg, s, e, env).t, Step(cfg, s, e, env).tasks[i].ref)
  {
    var (cid, actual) := s.tasks[e.id].rows[0];
    TurnCrash.CondemnedKept(cfg, s, e, env);
    CondemnSettles(cfg, Correct(s.t, cid, actual), cid, s.t.active[cid], actual, env.now);
  }

  // ----- the sweep -----

  /** The identifiers a sweep has still to revoke. */
  function Listed(task: Task): seq<string> {
    match task
    case SweepFlushing(cids) => cids
    case SweepNext(cids) => cids
    case SweepRevoking(cid, _, cids) => [cid] + cids
    case _ => []
  }

  /** References and tasks are numbered from one counter. A sweep settled every entry on its list when it
  started, so an entry on the list that is not settled is younger than the sweep. */
  ghost predicate Swept(s: Sys) {
    forall i, cid :: i in s.tasks && cid in Listed(s.tasks[i]) && cid in s.t.active && s.t.active[cid] < i
      ==> SettledIn(s.t, s.t.active[cid])
  }

  predicate Narrows(a: Task, b: Task) {
    forall cid :: cid in Listed(a) ==> cid in Listed(b)
  }

  /** Every sweep was there before, with at least the same list. */
  ghost predicate NoNewSweep(s: Sys, r: Sys) {
    forall i :: i in r.tasks ==> Listed(r.tasks[i]) == [] || (i in s.tasks && Narrows(r.tasks[i], s.tasks[i]))
  }

  ghost predicate AllSettled(t: Turn, cids: seq<string>) {
    forall cid :: cid in cids && cid in t.active ==> SettledIn(t, t.active[cid])
  }

  /** A sweep was there before, with at least the same list, or everything on its list is settled. */
  ghost predicate SweepsFrom(s: Sys, r: Sys) {
    forall i :: i in r.tasks ==>
      AllSettled(r.t, Listed(r.tasks[i])) || (i in s.tasks && Narrows(r.tasks[i], s.tasks[i]))
  }

  lemma NoNewSweepFrom(s: Sys, r: Sys)
    requires NoNewSweep(s, r)
    ensures SweepsFrom(s, r)
  {
  }

  lemma MarkAllSettles(t: Turn, cids: seq<string>, now: int)
    requires Closed(t)
    ensures AllSettled(MarkAll(t, cids, now), cids)
  {
    MarkAllCondemns(t, cids, now);
    var r := MarkAll(t, cids, now);
    forall cid | cid in cids && cid in r.active ensures SettledIn(r, r.active[cid]) {
      assert Condemned(r, cid);
    }
  }

  /** The sweep that the kill switch starts has settled its whole list. */
  lemma KillSwitchSettles(cfg: Config, s: Sys, x: Sys, cids: seq<string>, now: int)
    requires Closed(x.t) && NoNewSweep(s, x)
    ensures SweepsFrom(s, KillSwitch(cfg, x, cids, now))
  {
    MarkAllSettles(Trip(cfg, x.t, now), cids, now);
  }

  lemma GoneNarrows(s: Sys, r: Sys, id: nat)
    requires r.tasks == s.tasks - {id}
    ensures NoNewSweep(s, r)
  {
  }

  lemma GoNarrows(s: Sys, r: Sys, id: nat, task: Task)
    requires r.tasks == s.tasks[id := task] && (Listed(task) == [] || (id in s.tasks && Narrows(task, s.tasks[id])))
    ensures NoNewSweep(s, r)
  {
  }

  /** The task ends, or goes on as one with no list. */
  ghost predicate Plain(s: Sys, r: Sys, id: nat) {
    r.tasks == s.tasks - {id} || (id in r.tasks && r.tasks == s.tasks[id := r.tasks[id]] && Listed(r.tasks[id]) == [])
  }

  lemma IssuedPlain(cfg: Config, s: Sys, id: nat, ok: bool)
    requires id in s.tasks && s.tasks[id].Issuing?
    ensures Plain(s, OnIssued(cfg, s, id, s.tasks[id], ok), id)
  {
  }

  lemma RetryPlain(s: Sys, id: nat, ok: bool, now: int)
    requires id in s.tasks && Captured(s, id, s.tasks[id])
    ensures s.tasks[id].RetryNext? ==> Plain(s, OnRetryNext(s, id, s.tasks[id], now), id)
    ensures s.tasks[id].RetryRevoking? ==> Plain(s, OnRetryRevoked(s, id, s.tasks[id], ok, now), id)
  {
  }

  lemma PolledPlain(s: Sys, id: nat, generation: nat, reply: Reply)
    requires reply.Rows? || reply.QueryFailed?
    ensures Plain(s, OnPolled(s, id, generation, reply), id)
  {
  }

  lemma PlainSweeps(s: Sys, r: Sys, id: nat)
    requires Plain(s, r, id)
    ensures NoNewSweep(s, r)
  {
    if r.tasks == s.tasks - {id} {
      GoneNarrows(s, r, id);
    } else {
      GoNarrows(s, r, id, r.tasks[id]);
    }
  }

  lemma AskPlain(cfg: Config, s: Sys, id: nat, reply: Reply, env: Env)
    requires WellFormed(s) && id in s.tasks && Awaits(s.tasks[id], reply) && Asks(s.tasks[id])
    ensures Plain(s, OnResume(cfg, s, id, reply, env), id)
  {
    assert Captured(s, id, s.tasks[id]);
    match s.tasks[id]
    case Issuing(_, _, _) => IssuedPlain(cfg, s, id, reply.ProviderOk?);
    case Returning(_) =>
    case RetryNext(_, _) => RetryPlain(s, id, true, env.now);
    case RetryRevoking(_, _, _, _) => RetryPlain(s, id, reply.ok, env.now);
    case Polling(generation) => PolledPlain(s, id, generation, reply);
  }

  lemma AbuseSweeps(cfg: Config, s: Sys, id: nat, reply: Reply, env: Env)
    requires WellFormed(s) && id in s.tasks && Awaits(s.tasks[id], reply)
    requires s.tasks[id].AbuseFlushing? || s.tasks[id].AbuseRevoking? || s.tasks[id].AbuseReflushing?
    ensures NoNewSweep(s, OnResume(cfg, s, id, reply, env))
  {
    var r := OnResume(cfg, s, id, reply, env);
    GoNarrows(s, r, id, r.tasks[id]);
  }

  lemma AppliedRowPlain(cfg: Config, s: Sys, id: nat, rows: seq<(string, nat)>, env: Env)
    requires Closed(s.t) && id in s.tasks && rows != []
    ensures Plain(s, OnRow(cfg, s, id, rows, env), id)
  {
  }

  lemma RowSweeps(cfg: Config, s: Sys, id: nat, rows: seq<(string, nat)>, env: Env)
    requires Closed(s.t) && id in s.tasks
    ensures SweepsFrom(s, OnRow(cfg, s, id, rows, env))
  {
    if rows == [] {
      var x := TurnMachine.End(s, id).(abuseBusy := false);
      GoneNarrows(s, x, id);
      KillSwitchSettles(cfg, s, x, env.sweepCids, env.now);
    } else {
      AppliedRowPlain(cfg, s, id, rows, env);
      PlainSweeps(s, OnRow(cfg, s, id, rows, env), id);
      NoNewSweepFrom(s, OnRow(cfg, s, id, rows, env));
    }
  }

  lemma TotalSweeps(cfg: Config, s: Sys, id: nat, reply: Reply, env: Env)
    requires WellFormed(s) && id in s.tasks && Awaits(s.tasks[id], reply) && s.tasks[id].Totalling?
    ensures SweepsFrom(s, OnResume(cfg, s, id, reply, env))
  {
    var task := s.tasks[id];
    var r := OnTotal(cfg, s, id, task, reply, env);
    if task.generation == s.globalGeneration && reply.MonthTotal? {
      var t := Expire(s.t, env.cids, env.now);
      var ended := TurnMachine.End(s, id).(globalBusy := s.globalBusy && !task.timed);
      var applied := WithTurn(ended, AppliedTotal(cfg, t, reply.total, reply.truncated, ActivePessimistic(t), env.now));
      var x := applied.(ready := applied.ready || !reply.truncated);
      GoneNarrows(s, x, id);
      KillSwitchSettles(cfg, s, x, env.sweepCids, env.now);
    } else {
      GoneNarrows(s, r, id);
      NoNewSweepFrom(s, r);
    }
  }

  lemma NextNarrows(s: Sys, id: nat, cids: seq<string>)
    requires id in s.tasks && s.tasks[id] == SweepNext(cids)
    ensures NoNewSweep(s, OnSweepNext(s, id, cids))
  {
    var r := OnSweepNext(s, id, cids);
    if cids != [] {
      assert cids == [cids[0]] + cids[1..];
    }
    GoNarrows(s, r, id, r.tasks[id]);
  }

  lemma RevokedNarrows(s: Sys, id: nat, ok: bool, now: int)
    requires id in s.tasks && s.tasks[id].SweepRevoking? && s.tasks[id].ref in s.t.creds
    ensures NoNewSweep(s, OnSweepRevoked(s, id, s.tasks[id], ok, now))
  {
    GoNarrows(s, OnSweepRevoked(s, id, s.tasks[id], ok, now), id, SweepNext(s.tasks[id].cids));
  }

  lemma SweepTaskSweeps(cfg: Config, s: Sys, id: nat, reply: Reply, env: Env)
    requires WellFormed(s) && id in s.tasks && Awaits(s.tasks[id], reply)
    requires s.tasks[id].SweepFlushing? || s.tasks[id].SweepNext? || s.tasks[id].SweepRevoking?
             || s.tasks[id].SweepReflushing?
    ensures NoNewSweep(s, OnResume(cfg, s, id, reply, env))
  {
    assert Captured(s, id, s.tasks[id]);
    match s.tasks[id]
    case SweepFlushing(cids) =>
      GoNarrows(s, Go(s, id, SweepNext(cids)), id, SweepNext(cids));
      GoneNarrows(s, TurnMachine.End(s, id), id);
    case SweepNext(cids) => NextNarrows(s, id, cids);
    case SweepRevoking(_, _, _) => RevokedNarrows(s, id, reply.ok, env.now);
    case SweepReflushing => GoneNarrows(s, TurnMachine.End(s, id), id);
  }

  lemma ResumeSweeps(cfg: Config, s: Sys, id: nat, reply: Reply, env: Env)
    requires WellFormed(s) && id in s.tasks && Awaits(s.tasks[id], reply)
    ensures SweepsFrom(s, OnResume(cfg, s, id, reply, env))
  {
    var r := OnResume(cfg, s, id, reply, env);
    if s.tasks[id].ApplyingRows? {
      RowSweeps(cfg, s, id, s.tasks[id].rows, env);
    } else if s.tasks[id].Totalling? {
      TotalSweeps(cfg, s, id, reply, env);
    } else {
      if Asks(s.tasks[id]) {
        AskPlain(cfg, s, id, reply, env);
        PlainSweeps(s, r, id);
      } else if s.tasks[id].AbuseFlushing? || s.tasks[id].AbuseRevoking? || s.tasks[id].AbuseReflushing? {
        AbuseSweeps(cfg, s, id, reply, env);
      } else {
        SweepTaskSweeps(cfg, s, id, reply, env);
      }
      NoNewSweepFrom(s, r);
    }
  }

  lemma StartSweeps(cfg: Config, s: Sys, x: Sys, cid: string, ip: string, principal: string, env: Env)
    requires Closed(x.t) && x.tasks == s.tasks
    ensures SweepsFrom(s, StartFresh(cfg, x, cid, ip, principal, env))
  {
    var t, task := StartShape(cfg, x, cid, ip, principal, env);
    var y := Spawn(WithTurn(x, t), task);
    GoNarrows(s, y, x.nextId, task);
    if task.Issuing? {
      KillSwitchSettles(cfg, s, y, env.sweepCids, env.now);
    } else {
      NoNewSweepFrom(s, y);
    }
  }

  lemma RequestSweeps(cfg: Config, s: Sys, e: Event, env: Env)
    requires WellFormed(s) && e.Request?
    ensures SweepsFrom(s, OnRequest(cfg, s, e.cid, e.ip, e.principal, env))
  {
    var r := OnRequest(cfg, s, e.cid, e.ip, e.principal, env);
    var swept := WithTurn(s, Housekeep(s.t, env.month, env.cids, env.now));
    var who := RequestPrincipal(e.cid, e.principal);
    if s.ready && GateOf(cfg, swept.t, e.cid, e.ip, who, env.now).Fresh? {
      StartSweeps(cfg, s, swept, e.cid, e.ip, who, env);
    } else {
      NoNewSweepFrom(s, r);
    }
  }

  lemma StepSweeps(cfg: Config, s: Sys, e: Event, env: Env)
    requires WellFormed(s)
    ensures SweepsFrom(s, Step(cfg, s, e, env))
  {
    if Enabled(s, e) {
      match e
      case Request(_, _, _) => RequestSweeps(cfg, s, e, env);
      case Resume(id, reply) => ResumeSweeps(cfg, s, id, reply, env);
      case _ => NoNewSweepFrom(s, Step(cfg, s, e, env));
    } else {
      NoNewSweepFrom(s, s);
    }
  }

  lemma StepSwept(cfg: Config, s: Sys, e: Event, env: Env)
    requires WellFormed(s) && Swept(s)
    ensures Swept(Step(cfg, s, e, env))
  {
    var r := Step(cfg, s, e, env);
    StepMoves(cfg, s, e, env);
    StepSweeps(cfg, s, e, env);
    forall i, cid | i in r.tasks && cid in Listed(r.tasks[i]) && cid in r.t.active && r.t.active[cid] < i
      ensures SettledIn(r.t, r.t.active[cid])
    {
      if !AllSettled(r.t, Listed(r.tasks[i])) {
        assert i in s.tasks && i < s.nextId && cid in Listed(s.tasks[i]);
        assert SettledIn(s.t, s.t.active[cid]);
      }
    }
  }

  lemma {:induction false} RunSettles(cfg: Config, t: Trace)
    requires Possible(cfg, t)
    ensures AbuseSettled(Run(cfg, t)) && Swept(Run(cfg, t))
  {
    if t.After? {
      RunSettles(cfg, t.before);
      RunHealthy(cfg, t.before);
      StepAbuseSettled(cfg, Run(cfg, t.before), t.event, t.env);
      StepSwept(cfg, Run(cfg, t.before), t.event, t.env);
    }
  }

  // ----- what a removal loses -----

  /** Nothing was confirmed of this credential that is not in the ledger. */
  predicate OwesNothing(t: Turn, ref: Ref)
    requires ref in t.creds
  {
    t.creds[ref].settled || t.creds[ref].cfActual == 0
  }

  ghost predicate SameConfirmed(a: Turn, b: Turn)
    requires Keyed(a) && Keyed(b)
  {
    forall ip :: Confirmed(b, ip) == Confirmed(a, ip)
  }

  /** Removing an entry keeps every IP's confirmed bytes exactly when there is none or it owes nothing. */
  lemma RemovalConservesIff(t: Turn, cid: string, why: Reason)
    requires Keyed(t)
    ensures Keyed(Remove(t, cid, why))
    ensures SameConfirmed(t, Remove(t, cid, why)) <==> cid !in t.active || OwesNothing(t, t.active[cid])
  {
    var r := Remove(t, cid, why);
    assert Keyed(r);
    forall ip ensures Confirmed(r, ip) == Confirmed(t, ip) - Due(t, cid, ip) {
      RemoveForgets(t, cid, why, ip);
    }
    DueIff(t, r, cid);
  }

  lemma DueIff(t: Turn, r: Turn, cid: string)
    requires Keyed(t) && Keyed(r) && forall ip :: Confirmed(r, ip) == Confirmed(t, ip) - Due(t, cid, ip)
    ensures SameConfirmed(t, r) <==> cid !in t.active || OwesNothing(t, t.active[cid])
  {
    if cid in t.active {
      var own := t.creds[t.active[cid]].ip;
      assert Confirmed(r, own) == Confirmed(t, own) - Due(t, cid, own);
    }
  }

  lemma QueuedConserves(t: Turn, ref: Ref, now: int)
    requires Keyed(t) && ref in t.creds
    ensures Keyed(MarkPending(t, ref, now)) && SameConfirmed(t, MarkPending(t, ref, now))
  {
    PendingConserves(t, ref, now, "");
    forall ip ensures Confirmed(MarkPending(t, ref, now), ip) == Confirmed(t, ip) {
      PendingConserves(t, ref, now, ip);
    }
  }

  /** In every run, when the abuse path's revoke is answered, confirmed bytes are lost exactly if it
  succeeded and the identifier was meanwhile issued a newer credential that has some. */
  lemma AbuseRemovalConservesIff(cfg: Config, t: Trace, id: nat, ok: bool, now: int)
    requires Possible(cfg, t) && id in Run(cfg, t).tasks && Run(cfg, t).tasks[id].AbuseRevoking?
    ensures var s := Run(cfg, t);
            var (cid, ref) := (s.tasks[id].cid, s.tasks[id].ref);
            && Keyed(s.t) && ref in s.t.creds
            && var r := OnAbuseRevoked(s, id, s.tasks[id], ok, now);
               && Keyed(r.t)
               && (SameConfirmed(s.t, r.t)
                  <==> !ok || cid !in s.t.active || s.t.active[cid] == ref || OwesNothing(s.t, s.t.active[cid]))
  {
    RunIsKeyed(cfg, t);
    RunHealthy(cfg, t);
    RunSettles(cfg, t);
    var s := Run(cfg, t);
    assert SettledIn(s.t, s.tasks[id].ref);
    if ok {
      RemovalConservesIff(s.t, s.tasks[id].cid, Revoked);
    } else {
      QueuedConserves(s.t, s.tasks[id].ref, now);
    }
  }

  lemma HeldOwesNothing(cfg: Config, t: Turn, k: TurnCrash.Mark, now: int)
    requires TurnCrash.Held(cfg, t, k, now) && now < k.until
    ensures k.cid !in t.active || OwesNothing(t, t.active[k.cid])
  {
  }

  /** With denial on, that cannot happen before the ban runs out: whatever runs meanwhile, the answered
  revoke keeps every IP's confirmed bytes. */
  lemma BannedRemovalConserves(cfg: Config, h: TurnCrash.History, id: nat, ok: bool, now: int)
    requires TurnCrash.Happens(cfg, h) && cfg.banMs > 0
    requires id in TurnCrash.Replay(cfg, h).sys.tasks && TurnCrash.Replay(cfg, h).sys.tasks[id].AbuseRevoking?
    ensures var w := TurnCrash.Replay(cfg, h);
            && id in w.marks && Keyed(w.sys.t) && w.sys.tasks[id].ref in w.sys.t.creds
            && var r := OnAbuseRevoked(w.sys, id, w.sys.tasks[id], ok, now);
               Keyed(r.t) && (TurnCrash.Clock(h) < w.marks[id].until ==> SameConfirmed(w.sys.t, r.t))
  {
    TurnCrash.HistoryProtects(cfg, h);
    TurnCrash.RevokeOnlyAfterItIsOnDisk(cfg, h, id);
    var w := TurnCrash.Replay(cfg, h);
    var k := w.marks[id];
    assert TurnCrash.HeldNow(cfg, k, TurnCrash.Clock(h))(w.store.memory);
    if TurnCrash.Clock(h) < k.until {
      HeldOwesNothing(cfg, w.sys.t, k, TurnCrash.Clock(h));
    }
    if ok {
      RemovalConservesIff(w.sys.t, k.cid, Revoked);
    } else {
      QueuedConserves(w.sys.t, k.ref, now);
    }
  }

  /** In every run, when a revoke of the kill-switch sweep is answered, confirmed bytes are lost exactly if
  it succeeded and deletes an entry younger than the sweep that has some. */
  lemma SweepRemovalConservesIff(cfg: Config, t: Trace, id: nat, ok: bool, now: int)
    requires Possible(cfg, t) && id in Run(cfg, t).tasks && Run(cfg, t).tasks[id].SweepRevoking?
    ensures var s := Run(cfg, t);
            var cid := s.tasks[id].cid;
            && Keyed(s.t) && s.tasks[id].ref in s.t.creds
            && var r := OnSweepRevoked(s, id, s.tasks[id], ok, now);
               && Keyed(r.t)
               && (SameConfirmed(s.t, r.t)
                  <==> !ok || cid !in s.t.active || s.t.active[cid] < id || OwesNothing(s.t, s.t.active[cid]))
  {
    RunIsKeyed(cfg, t);
    RunHealthy(cfg, t);
    RunSettles(cfg, t);
    var s := Run(cfg, t);
    assert Captured(s, id, s.tasks[id]) && s.tasks[id].cid in Listed(s.tasks[id]);
    if ok {
      RemovalConservesIff(s.t, s.tasks[id].cid, Revoked);
    } else {
      QueuedConserves(s.t, s.tasks[id].ref, now);
    }
  }
}
