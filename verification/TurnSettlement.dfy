/** Settlement: a credential's confirmed bytes enter the hourly ledger once, and are not lost on the way. */
module TurnSettlement {

  import opened Common
  import opened Sums
  import opened TurnState
  import opened TurnMachine
  import opened TurnOps
  import opened TurnRuns

  // ----- one ledger row for each reservation -----

  lemma FromsAppend(ledger: seq<Row>, row: Row)
    ensures Froms(ledger + [row]) == Froms(ledger) + [row.from]
  {
    assert (ledger + [row])[..|ledger|] == ledger;
  }

  lemma {:induction false} FromsAreRows(ledger: seq<Row>)
    ensures forall ref :: ref in Froms(ledger) <==> exists row :: row in ledger && row.from == ref
  {
    if ledger != [] {
      var init, last := ledger[..|ledger| - 1], ledger[|ledger| - 1];
      FromsAreRows(init);
      assert ledger == init + [last];
      assert last in ledger;
    }
  }

  lemma {:induction false} PrunedRowsDistinct(ledger: seq<Row>, cutoff: int)
    requires Distinct(Froms(ledger))
    ensures Distinct(Froms(RowsFrom(ledger, cutoff)))
    ensures forall row :: row in RowsFrom(ledger, cutoff) <==> row in ledger && row.at >= cutoff
  {
    if ledger != [] {
      var init, last := ledger[..|ledger| - 1], ledger[|ledger| - 1];
      assert ledger == init + [last];
      FromsAppend(init, last);
      DistinctAppend(Froms(init), last.from);
      PrunedRowsDistinct(init, cutoff);
      FromsAreRows(init);
      FromsAreRows(RowsFrom(init, cutoff));
      FromsAppend(RowsFrom(init, cutoff), last);
      if last.at >= cutoff {
        assert last.from !in Froms(RowsFrom(init, cutoff));
        DistinctAppend(Froms(RowsFrom(init, cutoff)), last.from);
      }
    }
  }

  /** Every credential that ever wrote a ledger row is settled, and wrote one. */
  ghost predicate Recorded(creds: map<Ref, Cred>, written: seq<Ref>, ledger: seq<Row>) {
    && (forall ref :: ref in written ==> ref in creds && creds[ref].settled)
    && Distinct(written) && Distinct(Froms(ledger)) && (forall row :: row in ledger ==> row.from in written)
  }

  ghost predicate WrittenOnce(t: Turn) {
    Recorded(t.creds, t.log.written, t.ledger)
  }

  lemma WriteKeepsRecorded(creds: map<Ref, Cred>, written: seq<Ref>, ledger: seq<Row>, row: Row)
    requires Recorded(creds, written, ledger) && row.from in creds && creds[row.from].settled && row.from !in written
    ensures Recorded(creds, written + [row.from], ledger + [row])
  {
    DistinctAppend(written, row.from);
    FromsAppend(ledger, row);
    FromsAreRows(ledger);
    DistinctAppend(Froms(ledger), row.from);
  }

  lemma EditKeepsRecorded(creds: map<Ref, Cred>, written: seq<Ref>, ledger: seq<Row>, ref: Ref, c: Cred)
    requires Recorded(creds, written, ledger) && c.settled
    ensures Recorded(creds[ref := c], written, ledger)
  {
  }

  lemma SettleKeepsWrittenOnce(t: Turn, ref: Ref, observed: nat, now: int)
    requires WrittenOnce(t) && ref in t.creds
    ensures WrittenOnce(Settle(t, ref, observed, now))
  {
    var c := t.creds[ref];
    if !c.settled {
      var bytes: nat := Max(observed, c.cfActual);
      var creds := t.creds[ref := c.(cfActual := bytes, settled := true)];
      EditKeepsRecorded(t.creds, t.log.written, t.ledger, ref, creds[ref]);
      if bytes > 0 {
        WriteKeepsRecorded(creds, t.log.written, t.ledger, Row(c.ip, bytes, now, ref));
      }
    }
  }

  lemma PruneKeepsWrittenOnce(t: Turn, now: int)
    requires WrittenOnce(t)
    ensures WrittenOnce(PruneLedger(t, now))
  {
    PrunedRowsDistinct(t.ledger, now - HOUR_MS);
  }

  predicate KeepsSettled(op: Op) {
    !op.SettleOp? && !op.PruneRows?
  }

  /** No operation but settling and pruning touches the ledger, and none unsettles a record. */
  lemma OthersLeaveTheLedger(cfg: Config, t: Turn, op: Op, at: At)
    requires May(cfg, t, op, at) && KeepsSettled(op)
    ensures Do(cfg, t, op, at).ledger == t.ledger && Do(cfg, t, op, at).log.written == t.log.written
    ensures forall ref :: ref in t.creds ==> ref in Do(cfg, t, op, at).creds
    ensures forall ref :: ref in t.creds && t.creds[ref].settled ==> Do(cfg, t, op, at).creds[ref].settled
  {
    if Bookkeeping(op) {
      BookkeepingLeaves(cfg, t, op, at);
    }
  }

  lemma OpKeepsWrittenOnce(cfg: Config, t: Turn, op: Op, at: At)
    requires May(cfg, t, op, at) && WrittenOnce(t)
    ensures WrittenOnce(Do(cfg, t, op, at))
  {
    match op
    case SettleOp(ref, observed) => SettleKeepsWrittenOnce(t, ref, observed, at.now);
    case PruneRows => PruneKeepsWrittenOnce(t, at.now);
    case _ => OthersLeaveTheLedger(cfg, t, op, at);
  }

  /** Over any run a reservation writes at most one ledger row, and is settled when it has. */
  lemma OneRowForEachReservation(cfg: Config, t: Trace)
    requires Possible(cfg, t)
    ensures var u := Run(cfg, t).t;
            && Distinct(u.log.written) && Distinct(Froms(u.ledger))
            && (forall row :: row in u.ledger ==> row.from in u.log.written)
            && (forall ref :: ref in u.log.written ==> ref in u.creds && u.creds[ref].settled)
  {
    forall at, x, op | WrittenOnce(x) && May(cfg, x, op, at) ensures WrittenOnce(Do(cfg, x, op, at)) {
      OpKeepsWrittenOnce(cfg, x, op, at);
    }
    RunKeeps(cfg, t, WrittenOnce);
  }

  // ----- confirmed bytes -----

  function LedgerOf(ledger: seq<Row>, ip: string): nat {
    if ledger == [] then 0
    else
      var last := ledger[|ledger| - 1];
      LedgerOf(ledger[..|ledger| - 1], ip) + (if last.ip == ip then last.bytes else 0)
  }

  lemma LedgerOfAppend(ledger: seq<Row>, row: Row, ip: string)
    ensures LedgerOf(ledger + [row], ip) == LedgerOf(ledger, ip) + (if row.ip == ip then row.bytes else 0)
  {
    assert (ledger + [row])[..|ledger|] == ledger;
  }

  /** What a record still owes the ledger of `ip`. */
  function Owed(c: Cred, ip: string): nat {
    if c.ip == ip && !c.settled then c.cfActual else 0
  }

  /** Every entry's record carries the entry's own identifier, so no record is active twice. */
  ghost predicate Keyed(t: Turn) {
    forall cid :: cid in t.active ==> t.active[cid] in t.creds && t.creds[t.active[cid]].cid == cid
  }

  ghost function Owing(active: map<string, Ref>, creds: map<Ref, Cred>, ip: string): map<string, int>
    requires forall cid :: cid in active ==> active[cid] in creds
  {
    map cid | cid in active :: Owed(creds[active[cid]], ip) as int
  }

  /** An IP's confirmed bytes: its ledger rows plus what its active credentials still owe. */
  ghost function Confirmed(t: Turn, ip: string): int
    requires Keyed(t)
  {
    LedgerOf(t.ledger, ip) + Total(Owing(t.active, t.creds, ip))
  }

  predicate Active(t: Turn, cid: string, ref: Ref) {
    cid in t.active && t.active[cid] == ref
  }

  /** What settling a record that is no longer active adds. */
  function Orphaned(t: Turn, ref: Ref, ip: string): nat
    requires ref in t.creds
  {
    if Active(t, t.creds[ref].cid, ref) then 0 else Owed(t.creds[ref], ip)
  }

  function Due(t: Turn, cid: string, ip: string): nat {
    if cid in t.active && t.active[cid] in t.creds then Owed(t.creds[t.active[cid]], ip) else 0
  }

  lemma SettleOwing(t: Turn, ref: Ref, c: Cred, ip: string)
    requires Keyed(t) && ref in t.creds && c.cid == t.creds[ref].cid && c.settled
    ensures Total(Owing(t.active, t.creds[ref := c], ip))
              == Total(Owing(t.active, t.creds, ip)) - (if Active(t, c.cid, ref) then Owed(t.creds[ref], ip) else 0)
  {
    var before, after := Owing(t.active, t.creds, ip), Owing(t.active, t.creds[ref := c], ip);
    if Active(t, c.cid, ref) {
      assert after == before[c.cid := 0];
      TotalUpdate(before, c.cid, 0);
      TotalWithout(before, c.cid);
    } else {
      assert after == before;
    }
  }

  // What settling writes.
  lemma SettleShape(t: Turn, ref: Ref, observed: nat, now: int)
    requires ref in t.creds && observed <= t.creds[ref].cfActual && !t.creds[ref].settled
    ensures var c := t.creds[ref];
            var r := Settle(t, ref, observed, now);
            && r.active == t.active && r.creds == t.creds[ref := c.(settled := true)]
            && r.ledger == if c.cfActual > 0 then t.ledger + [Row(c.ip, c.cfActual, now, ref)] else t.ledger
  {
  }

  lemma SettleKeepsKeyed(t: Turn, ref: Ref, observed: nat, now: int)
    requires Keyed(t) && ref in t.creds
    ensures Keyed(Settle(t, ref, observed, now))
  {
  }

  /** Settling moves what a record owes into the ledger, and adds bytes only for a record that is no
  longer active. */
  lemma SettleConfirms(t: Turn, ref: Ref, observed: nat, now: int, ip: string)
    requires Keyed(t) && ref in t.creds && observed <= t.creds[ref].cfActual
    ensures var r := Settle(t, ref, observed, now);
            && Keyed(r) && r.active == t.active && r.creds[ref].settled
            && Confirmed(r, ip) == Confirmed(t, ip) + Orphaned(t, ref, ip)
  {
    var c := t.creds[ref];
    SettleKeepsKeyed(t, ref, observed, now);
    if !c.settled {
      SettleShape(t, ref, observed, now);
      SettleOwing(t, ref, c.(settled := true), ip);
      LedgerOfAppend(t.ledger, Row(c.ip, c.cfActual, now, ref), ip);
    }
  }

  /** Removing an entry forgets exactly what it still owed. */
  lemma RemoveForgets(t: Turn, cid: string, why: Reason, ip: string)
    requires Keyed(t)
    ensures Keyed(Remove(t, cid, why)) && Confirmed(Remove(t, cid, why), ip) == Confirmed(t, ip) - Due(t, cid, ip)
  {
    var before := Owing(t.active, t.creds, ip);
    if cid in t.active {
      TotalWithout(before, cid);
      assert Owing(t.active - {cid}, t.creds, ip) == before - {cid};
    } else {
      assert t.active - {cid} == t.active;
    }
  }

  /** The settle-and-remove of the retry loop: exactly conserving while the key still maps to the settled
  reservation; if it was replaced meanwhile, what the newer entry owed is lost. */
  lemma SettleAndRemoveConfirms(t: Turn, cid: string, ref: Ref, why: Reason, now: int, ip: string)
    requires Keyed(t) && ref in t.creds
    ensures var r := SettleAndRemove(t, cid, ref, why, now);
            && Keyed(r)
            && Confirmed(r, ip)
               == Confirmed(t, ip) + Orphaned(t, ref, ip) - (if Active(t, cid, ref) then 0 else Due(t, cid, ip))
            && (Active(t, cid, ref) ==> Confirmed(r, ip) == Confirmed(t, ip))
  {
    SettleConfirms(t, ref, 0, now, ip);
    RemoveForgets(Settle(t, ref, 0, now), cid, why, ip);
  }

  predicate Retries(task: Task) {
    task.RetryRevoking? || (task.RetryNext? && task.queue != [])
  }

  function RetriedKey(task: Task): (string, Ref)
    requires Retries(task)
  {
    if task.RetryRevoking? then (task.cid, task.ref) else task.queue[0]
  }

  /** No step of the retry loop changes an IP's confirmed bytes while the key it works on still maps to the
  reservation it captured, whether the entry expired, was revoked or failed to be. */
  lemma RetryStepConserves(s: Sys, id: nat, ok: bool, now: int, ip: string)
    requires WellFormed(s) && Keyed(s.t) && id in s.tasks && Retries(s.tasks[id])
    requires Active(s.t, RetriedKey(s.tasks[id]).0, RetriedKey(s.tasks[id]).1)
    ensures var r := if s.tasks[id].RetryNext? then OnRetryNext(s, id, s.tasks[id], now)
                     else OnRetryRevoked(s, id, s.tasks[id], ok, now);
            Keyed(r.t) && Confirmed(r.t, ip) == Confirmed(s.t, ip)
  {
    if s.tasks[id].RetryNext? {
      RetryNextConserves(s, id, now, ip);
    } else {
      RetryRevokedConserves(s, id, ok, now, ip);
    }
  }

  lemma RetryNextConserves(s: Sys, id: nat, now: int, ip: string)
    requires Keyed(s.t) && id in s.tasks && s.tasks[id].RetryNext? && Captured(s, id, s.tasks[id])
             && Retries(s.tasks[id])
    requires Active(s.t, RetriedKey(s.tasks[id]).0, RetriedKey(s.tasks[id]).1)
    ensures var r := OnRetryNext(s, id, s.tasks[id], now); Keyed(r.t) && Confirmed(r.t, ip) == Confirmed(s.t, ip)
  {
    var (cid, ref) := s.tasks[id].queue[0];
    SettleAndRemoveConfirms(s.t, cid, ref, Expired, now, ip);
  }

  lemma RetryRevokedConserves(s: Sys, id: nat, ok: bool, now: int, ip: string)
    requires Keyed(s.t) && id in s.tasks && s.tasks[id].RetryRevoking? && s.tasks[id].ref in s.t.creds
    requires Active(s.t, s.tasks[id].cid, s.tasks[id].ref)
    ensures var r := OnRetryRevoked(s, id, s.tasks[id], ok, now); Keyed(r.t) && Confirmed(r.t, ip) == Confirmed(s.t, ip)
  {
    var task := s.tasks[id];
    if ok {
      SettleAndRemoveConfirms(s.t, task.cid, task.ref, Revoked, now, ip);
    } else {
      AttemptConserves(s.t, task.ref, task.startedAt, ip);
    }
  }

  lemma AttemptConserves(t: Turn, ref: Ref, at: int, ip: string)
    requires Keyed(t) && ref in t.creds
    ensures var c := t.creds[ref];
            var r := t.(creds := t.creds[ref := c.(revokeAttempts := c.revokeAttempts + 1, lastAttemptAt := at)]);
            Keyed(r) && Confirmed(r, ip) == Confirmed(t, ip)
  {
    var c := t.creds[ref].(revokeAttempts := t.creds[ref].revokeAttempts + 1, lastAttemptAt := at);
    assert Owing(t.active, t.creds[ref := c], ip) == Owing(t.active, t.creds, ip);
  }

  lemma ExpireOneConserves(t: Turn, cid: string, now: int, ip: string)
    requires Keyed(t)
    ensures Keyed(ExpireOne(t, cid, now)) && Confirmed(ExpireOne(t, cid, now), ip) == Confirmed(t, ip)
  {
    if cid in t.active && t.creds[t.active[cid]].expiresAt < now {
      SettleAndRemoveConfirms(t, cid, t.active[cid], Expired, now, ip);
    }
  }

  /** Expiry conserves every IP's confirmed bytes, whatever it sweeps. */
  lemma {:induction false} ExpireConserves(t: Turn, cids: seq<string>, now: int, ip: string)
    requires Keyed(t)
    ensures Keyed(Expire(t, cids, now)) && Confirmed(Expire(t, cids, now), ip) == Confirmed(t, ip)
  {
    if cids != [] {
      ExpireConserves(t, cids[..|cids| - 1], now, ip);
      ExpireOneConserves(Expire(t, cids[..|cids| - 1], now), cids[|cids| - 1], now, ip);
    }
  }

  lemma PendingConserves(t: Turn, ref: Ref, now: int, ip: string)
    requires Keyed(t) && ref in t.creds
    ensures Keyed(MarkPending(t, ref, now)) && Confirmed(MarkPending(t, ref, now), ip) == Confirmed(t, ip)
  {
    var r := MarkPending(t, ref, now);
    assert Owing(r.active, r.creds, ip) == Owing(t.active, t.creds, ip);
  }

  lemma MarkOneConserves(t: Turn, cid: string, now: int, ip: string)
    requires Keyed(t)
    ensures Keyed(MarkOne(t, cid, now)) && Confirmed(MarkOne(t, cid, now), ip) == Confirmed(t, ip)
  {
    if cid in t.active {
      SettleConfirms(t, t.active[cid], 0, now, ip);
      PendingConserves(Settle(t, t.active[cid], 0, now), t.active[cid], now, ip);
    }
  }

  /** So does the kill-switch sweep. */
  lemma {:induction false} SweepConserves(t: Turn, cids: seq<string>, now: int, ip: string)
    requires Keyed(t)
    ensures Keyed(MarkAll(t, cids, now)) && Confirmed(MarkAll(t, cids, now), ip) == Confirmed(t, ip)
  {
    if cids != [] {
      SweepConserves(t, cids[..|cids| - 1], now, ip);
      MarkOneConserves(MarkAll(t, cids[..|cids| - 1], now), cids[|cids| - 1], now, ip);
    }
  }

  lemma DenyConserves(cfg: Config, t: Turn, principal: string, ip: string, cid: string, now: int, who: string)
    requires Keyed(t)
    ensures var r := ApplyDeny(cfg, t, principal, ip, cid, now);
            Keyed(r) && r.creds == t.creds && Confirmed(r, who) == Confirmed(t, who)
  {
  }

  /** And so does condemning an abusive credential, which is active when its row is applied. */
  lemma CondemnConserves(cfg: Config, t: Turn, cid: string, actual: nat, now: int, ip: string)
    requires Keyed(t) && cid in t.active && actual <= t.creds[t.active[cid]].cfActual
    ensures var r := Condemn(cfg, t, cid, t.active[cid], actual, now);
            Keyed(r) && Confirmed(r, ip) == Confirmed(t, ip) && r.creds[t.active[cid]].settled
  {
    var ref := t.active[cid];
    SettleConfirms(t, ref, actual, now, ip);
    var settled := Settle(t, ref, actual, now);
    var c := settled.creds[ref];
    DenyConserves(cfg, settled, PrincipalOf(c, cid), c.ip, cid, now, ip);
    PendingConserves(ApplyDeny(cfg, settled, PrincipalOf(c, cid), c.ip, cid, now), ref, now, ip);
  }

  lemma RenewalOwing(active: map<string, Ref>, creds: map<Ref, Cred>, cid: string, ref: Ref, c: Cred, ip: string)
    requires ref !in creds && c.cfActual == 0 && forall k :: k in active ==> active[k] in creds
    ensures Total(Owing(active[cid := ref], creds[ref := c], ip))
              == Total(Owing(active, creds, ip)) - (if cid in active then Owed(creds[active[cid]], ip) else 0)
  {
    var before := Owing(active, creds, ip);
    assert Owing(active[cid := ref], creds[ref := c], ip) == before[cid := 0];
    TotalUpdate(before, cid, 0);
    if cid in active {
      TotalWithout(before, cid);
    } else {
      assert before - {cid} == before;
    }
  }

  /** A renewal near expiry overwrites its predecessor without settling it, and loses what that owed. */
  lemma RenewalForgets(cfg: Config, t: Turn, cid: string, own: string, principal: string, now: int, ref: Ref,
      ip: string)
    requires Keyed(t) && ref !in t.creds
    ensures var r := Reserve(cfg, t, cid, own, principal, now, ref);
            Keyed(r) && Confirmed(r, ip) == Confirmed(t, ip) - Due(t, cid, ip)
  {
    var r := Reserve(cfg, t, cid, own, principal, now, ref);
    RenewalOwing(t.active, t.creds, cid, ref, r.creds[ref], ip);
  }

  // ----- every run -----

  /** Every record stays, under its own identifier. */
  ghost predicate SameIdentities(t: Turn, r: Turn) {
    forall ref :: ref in t.creds ==> ref in r.creds && r.creds[ref].cid == t.creds[ref].cid
  }

  lemma SettleKeepsIdentities(cfg: Config, t: Turn, op: Op, at: At)
    requires May(cfg, t, op, at) && op.SettleOp?
    ensures SameIdentities(t, Do(cfg, t, op, at))
  {
  }

  lemma EditKeepsIdentities(cfg: Config, t: Turn, op: Op, at: At)
    requires May(cfg, t, op, at) && (op.PendingOp? || op.AttemptOp? || op.RemoveOp?)
    ensures SameIdentities(t, Do(cfg, t, op, at))
  {
  }

  lemma CorrectKeepsIdentities(cfg: Config, t: Turn, op: Op, at: At)
    requires May(cfg, t, op, at) && op.CorrectOp?
    ensures SameIdentities(t, Do(cfg, t, op, at))
  {
  }

  lemma EditingKeepsIdentities(cfg: Config, t: Turn, op: Op, at: At)
    requires May(cfg, t, op, at) && Editing(op)
    ensures SameIdentities(t, Do(cfg, t, op, at))
  {
    if op.SettleOp? {
      SettleKeepsIdentities(cfg, t, op, at);
    } else if op.CorrectOp? {
      CorrectKeepsIdentities(cfg, t, op, at);
    } else {
      EditKeepsIdentities(cfg, t, op, at);
    }
  }

  lemma AnswerKeepsIdentities(cfg: Config, t: Turn, op: Op, at: At)
    requires May(cfg, t, op, at) && (op.GrantOp? || op.RollbackOp?)
    ensures SameIdentities(t, Do(cfg, t, op, at))
  {
  }

  /** No entry but one that was there. */
  ghost predicate NothingActivated(t: Turn, r: Turn) {
    forall cid :: cid in r.active ==> cid in t.active && r.active[cid] == t.active[cid]
  }

  lemma EditingActivatesNothing(cfg: Config, t: Turn, op: Op, at: At)
    requires May(cfg, t, op, at) && Editing(op)
    ensures NothingActivated(t, Do(cfg, t, op, at))
  {
  }

  lemma OthersActivateNothing(cfg: Config, t: Turn, op: Op, at: At)
    requires May(cfg, t, op, at) && !Bookkeeping(op) && !op.ReserveOp?
    ensures NothingActivated(t, Do(cfg, t, op, at))
  {
    if Editing(op) {
      EditingActivatesNothing(cfg, t, op, at);
    }
  }

  lemma OpKeepsKeyed(cfg: Config, t: Turn, op: Op, at: At)
    requires May(cfg, t, op, at) && Keyed(t)
    ensures Keyed(Do(cfg, t, op, at))
  {
    if Bookkeeping(op) {
      BookkeepingLeaves(cfg, t, op, at);
    } else if !op.ReserveOp? {
      if Editing(op) {
        EditingKeepsIdentities(cfg, t, op, at);
      } else {
        AnswerKeepsIdentities(cfg, t, op, at);
      }
      OthersActivateNothing(cfg, t, op, at);
    }
  }

  lemma RunIsKeyed(cfg: Config, t: Trace)
    requires Possible(cfg, t)
    ensures Keyed(Run(cfg, t).t)
  {
    forall at, x, op | Keyed(x) && May(cfg, x, op, at) ensures Keyed(Do(cfg, x, op, at)) {
      OpKeepsKeyed(cfg, x, op, at);
    }
    RunKeeps(cfg, t, Keyed);
  }
}
