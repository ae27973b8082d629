/** Reservation accounting: the estimate, the issuance history and the hourly cap, over whole runs. */
module TurnAccounting {

  import opened Common
  import opened TurnState
  import opened TurnMachine
  import opened TurnOps
  import opened TurnRuns

  // ----- filtering the history -----

  lemma {:induction false} IssuesFromTwice(rows: seq<Issue>, p: int, q: int)
    ensures IssuesFrom(IssuesFrom(rows, p), q) == IssuesFrom(rows, Max(p, q))
  {
    if rows != [] {
      var init, last := rows[..|rows| - 1], rows[|rows| - 1];
      IssuesFromTwice(init, p, q);
      if last.issuedAt >= p {
        var kept := IssuesFrom(init, p) + [last];
        assert kept[..|kept| - 1] == IssuesFrom(init, p);
      }
    }
  }

  lemma IssuesFromAppend(rows: seq<Issue>, issue: Issue, p: int)
    ensures IssuesFrom(rows + [issue], p) == IssuesFrom(rows, p) + (if issue.issuedAt >= p then [issue] else [])
  {
    assert (rows + [issue])[..|rows|] == rows;
  }

  lemma WithoutIssueAppend(rows: seq<Issue>, issue: Issue, ref: Ref)
    ensures WithoutIssue(rows + [issue], ref) == WithoutIssue(rows, ref) + (if issue.ref != ref then [issue] else [])
  {
    assert (rows + [issue])[..|rows|] == rows;
  }

  lemma {:induction false} FiltersCommute(rows: seq<Issue>, p: int, ref: Ref)
    ensures WithoutIssue(IssuesFrom(rows, p), ref) == IssuesFrom(WithoutIssue(rows, ref), p)
  {
    if rows != [] {
      var init, last := rows[..|rows| - 1], rows[|rows| - 1];
      FiltersCommute(init, p, ref);
      WithoutIssueAppend(IssuesFrom(init, p), last, ref);
      IssuesFromAppend(WithoutIssue(init, ref), last, p);
    }
  }

  lemma {:induction false} WithoutAbsent(rows: seq<Issue>, ref: Ref)
    requires forall i :: i in rows ==> i.ref != ref
    ensures WithoutIssue(rows, ref) == rows
  {
    if rows != [] {
      WithoutAbsent(rows[..|rows| - 1], ref);
    }
  }

  lemma {:induction false} WithoutFromConcat(left: seq<Issue>, right: seq<Issue>, ref: Ref)
    requires forall i :: i in left ==> i.ref != ref
    ensures WithoutIssue(left + right, ref) == left + WithoutIssue(right, ref)
  {
    if right == [] {
      assert left + right == left;
      WithoutAbsent(left, ref);
    } else {
      var init, last := right[..|right| - 1], right[|right| - 1];
      WithoutFromConcat(left, init, ref);
      assert left + right == (left + init) + [last];
      WithoutIssueAppend(left + init, last, ref);
    }
  }

  // ----- one row for each issuance -----

  /** No two rows belong to one issuance. */
  predicate OncePerIssue(rows: seq<Issue>) {
    rows == [] || (OncePerIssue(rows[..|rows| - 1]) && !Mentions(rows[..|rows| - 1], rows[|rows| - 1].ref))
  }

  predicate Mentions(rows: seq<Issue>, ref: Ref) {
    exists i :: i in rows && i.ref == ref
  }

  lemma MentionsNext(rows: seq<Issue>, last: Issue, ref: Ref)
    ensures Mentions(rows + [last], ref) <==> Mentions(rows, ref) || last.ref == ref
  {
    if Mentions(rows, ref) {
      var i :| i in rows && i.ref == ref;
      assert i in rows + [last];
    }
    assert last in rows + [last];
  }

  lemma OnceNext(rows: seq<Issue>, last: Issue)
    ensures OncePerIssue(rows + [last]) <==> OncePerIssue(rows) && !Mentions(rows, last.ref)
  {
    assert (rows + [last])[..|rows|] == rows;
  }

  lemma {:induction false} WithoutMentions(rows: seq<Issue>, ref: Ref, other: Ref)
    ensures Mentions(WithoutIssue(rows, ref), other) <==> Mentions(rows, other) && other != ref
  {
    if rows != [] {
      var init, last := rows[..|rows| - 1], rows[|rows| - 1];
      assert rows == init + [last];
      WithoutMentions(init, ref, other);
      MentionsNext(init, last, other);
      MentionsNext(WithoutIssue(init, ref), last, other);
    }
  }

  lemma {:induction false} WithoutOne(rows: seq<Issue>, ref: Ref)
    requires OncePerIssue(rows)
    ensures OncePerIssue(WithoutIssue(rows, ref))
    ensures |WithoutIssue(rows, ref)| == |rows| - (if Mentions(rows, ref) then 1 else 0)
  {
    if rows != [] {
      var init, last := rows[..|rows| - 1], rows[|rows| - 1];
      assert rows == init + [last];
      OnceNext(init, last);
      WithoutOne(init, ref);
      MentionsNext(init, last, ref);
      WithoutMentions(init, ref, last.ref);
      OnceNext(WithoutIssue(init, ref), last);
    }
  }

  // ----- the invariant -----

  /** Open reservations are among the issuances since boot, each of which has one row of its own, and the
  history is exactly the rows that have not aged out. */
  ghost predicate Listed(booted: seq<Issue>, issues: seq<Issue>, open: set<Ref>, history: seq<Issue>, pruned: int) {
    && OncePerIssue(issues)
    && (forall ref :: ref in open ==> Mentions(issues, ref))
    && (forall i :: i in booted ==> !Mentions(issues, i.ref))
    && history == IssuesFrom(booted + issues, pruned)
  }

  ghost predicate Accounted(cfg: Config, t: Turn) {
    && Closed(t)
    && Listed(t.log.booted, t.log.issues, t.log.open, t.history, t.log.pruned)
    && Estimated(cfg, t)
  }

  /** Without a month roll or an authoritative sync, the estimate is exactly what it was at boot plus
  every reservation not rolled back plus every correction. */
  ghost predicate Estimated(cfg: Config, t: Turn) {
    && t.log.base >= 0
    && (t.log.resets == 0 ==>
          t.usage.pessimistic == t.log.base + cfg.reservation * |t.log.issues| + t.log.corrections)
  }

  lemma IssueListed(booted: seq<Issue>, issues: seq<Issue>, open: set<Ref>, history: seq<Issue>, pruned: int,
      issue: Issue)
    requires Listed(booted, issues, open, history, pruned) && pruned <= issue.issuedAt
    requires !Mentions(issues, issue.ref) && !Mentions(booted, issue.ref)
    ensures Listed(booted, issues + [issue], open + {issue.ref}, history + [issue], pruned)
  {
    OnceNext(issues, issue);
    IssuesFromAppend(booted + issues, issue, pruned);
    assert booted + (issues + [issue]) == (booted + issues) + [issue];
    forall x | x in open + {issue.ref} ensures Mentions(issues + [issue], x) {
      MentionsNext(issues, issue, x);
    }
    forall i | i in booted ensures !Mentions(issues + [issue], i.ref) {
      MentionsNext(issues, issue, i.ref);
    }
  }

  lemma RollbackListed(booted: seq<Issue>, issues: seq<Issue>, open: set<Ref>, history: seq<Issue>, pruned: int,
      ref: Ref)
    requires Listed(booted, issues, open, history, pruned) && ref in open
    ensures Listed(booted, WithoutIssue(issues, ref), open - {ref}, WithoutIssue(history, ref), pruned)
    ensures |WithoutIssue(issues, ref)| == |issues| - 1
  {
    WithoutOne(issues, ref);
    WithoutIssueDrops(issues, ref);
    WithoutFromConcat(booted, issues, ref);
    FiltersCommute(booted + issues, pruned, ref);
    forall x | x in open - {ref} ensures Mentions(WithoutIssue(issues, ref), x) {
      var i :| i in issues && i.ref == x;
      assert i in WithoutIssue(issues, ref);
    }
  }

  lemma NewRefUnmentioned(t: Turn, ref: Ref)
    requires NewRef(t, ref)
    ensures !Mentions(t.log.issues, ref) && !Mentions(t.log.booted, ref)
  {
  }

  lemma ReserveKeepsAccounted(cfg: Config, t: Turn, cid: string, ip: string, principal: string, now: int, ref: Ref)
    requires Accounted(cfg, t) && NewRef(t, ref) && t.log.pruned <= now
    ensures Accounted(cfg, Reserve(cfg, t, cid, ip, principal, now, ref))
  {
    NewRefUnmentioned(t, ref);
    IssueListed(t.log.booted, t.log.issues, t.log.open, t.history, t.log.pruned, Issue(ip, now, ref));
    ReserveEstimated(cfg, t, cid, ip, principal, now, ref);
  }

  lemma ReserveEstimated(cfg: Config, t: Turn, cid: string, ip: string, principal: string, now: int, ref: Ref)
    requires Estimated(cfg, t)
    ensures Estimated(cfg, Reserve(cfg, t, cid, ip, principal, now, ref))
  {
    assert cfg.reservation * (|t.log.issues| + 1) == cfg.reservation * |t.log.issues| + cfg.reservation;
  }

  lemma RollbackKeepsAccounted(cfg: Config, t: Turn, cid: string, ref: Ref)
    requires Accounted(cfg, t) && ref in t.log.open
    ensures Accounted(cfg, Rollback(t, cid, ref, cfg.reservation))
    ensures t.log.resets == 0 ==> t.usage.pessimistic - cfg.reservation >= 0
  {
    RollbackListed(t.log.booted, t.log.issues, t.log.open, t.history, t.log.pruned, ref);
    RollbackEstimated(cfg, t, cid, ref);
  }

  lemma RollbackEstimated(cfg: Config, t: Turn, cid: string, ref: Ref)
    requires Estimated(cfg, t) && |WithoutIssue(t.log.issues, ref)| == |t.log.issues| - 1
    ensures Estimated(cfg, Rollback(t, cid, ref, cfg.reservation))
    ensures t.log.resets == 0 ==> t.usage.pessimistic - cfg.reservation >= 0
  {
    var n := |t.log.issues|;
    assert cfg.reservation * n == cfg.reservation * (n - 1) + cfg.reservation;
    assert cfg.reservation * (n - 1) >= 0;
  }

  lemma GrantKeepsAccounted(cfg: Config, t: Turn, cid: string, ref: Ref, expiresAt: int)
    requires Accounted(cfg, t)
    ensures Accounted(cfg, Grant(t, cid, ref, expiresAt))
  {
  }

  lemma PruneKeepsAccounted(cfg: Config, t: Turn, now: int)
    requires Accounted(cfg, t)
    ensures Accounted(cfg, PruneHistory(t, now))
  {
    IssuesFromTwice(t.log.booted + t.log.issues, t.log.pruned, now - HOUR_MS);
  }

  lemma TripKeepsAccounted(cfg: Config, t: Turn, now: int)
    requires Accounted(cfg, t)
    ensures Accounted(cfg, Trip(cfg, t, now))
  {
  }

  /** Same history, same issuances. */
  ghost predicate SameHistory(t: Turn, r: Turn) {
    && Closed(r) && r.history == t.history && r.log.pruned == t.log.pruned && r.log.issues == t.log.issues
    && r.log.open == t.log.open && r.log.booted == t.log.booted && r.log.base == t.log.base
  }

  lemma PruningLeavesTheHistory(cfg: Config, t: Turn, op: Op, at: At)
    requires May(cfg, t, op, at) && Pruning(op) && !op.PruneIssues?
    ensures SameHistory(t, Do(cfg, t, op, at))
  {
  }

  lemma CountingLeavesTheHistory(cfg: Config, t: Turn, op: Op, at: At)
    requires May(cfg, t, op, at) && Counting(op)
    ensures SameHistory(t, Do(cfg, t, op, at))
  {
  }

  lemma EditingLeavesTheHistory(cfg: Config, t: Turn, op: Op, at: At)
    requires May(cfg, t, op, at) && Editing(op)
    ensures SameHistory(t, Do(cfg, t, op, at))
  {
  }

  /** Operations that neither issue nor roll back leave the history and the issuances alone. */
  lemma OthersLeaveTheHistory(cfg: Config, t: Turn, op: Op, at: At)
    requires May(cfg, t, op, at) && !Answering(op) && !op.PruneIssues?
    ensures SameHistory(t, Do(cfg, t, op, at))
  {
    if Pruning(op) {
      PruningLeavesTheHistory(cfg, t, op, at);
    } else if Counting(op) {
      CountingLeavesTheHistory(cfg, t, op, at);
    } else {
      EditingLeavesTheHistory(cfg, t, op, at);
    }
  }

  /** The estimate moves only with the corrections, unless it is reset. */
  ghost predicate SameEstimate(t: Turn, r: Turn) {
    r.log.resets == 0
    ==> t.log.resets == 0 && r.usage.pessimistic - r.log.corrections == t.usage.pessimistic - t.log.corrections
  }

  lemma PruningKeepsTheEstimate(cfg: Config, t: Turn, op: Op, at: At)
    requires May(cfg, t, op, at) && Pruning(op)
    ensures SameEstimate(t, Do(cfg, t, op, at))
  {
  }

  lemma CountingKeepsTheEstimate(cfg: Config, t: Turn, op: Op, at: At)
    requires May(cfg, t, op, at) && Counting(op)
    ensures SameEstimate(t, Do(cfg, t, op, at))
  {
  }

  lemma EditingKeepsTheEstimate(cfg: Config, t: Turn, op: Op, at: At)
    requires May(cfg, t, op, at) && Editing(op)
    ensures SameEstimate(t, Do(cfg, t, op, at))
  {
  }

  lemma OthersKeepTheEstimate(cfg: Config, t: Turn, op: Op, at: At)
    requires May(cfg, t, op, at) && !Answering(op)
    ensures SameEstimate(t, Do(cfg, t, op, at))
  {
    if Pruning(op) {
      PruningKeepsTheEstimate(cfg, t, op, at);
    } else if Counting(op) {
      CountingKeepsTheEstimate(cfg, t, op, at);
    } else {
      EditingKeepsTheEstimate(cfg, t, op, at);
    }
  }

  ghost predicate AccountedAt(cfg: Config, t: Turn, now: int) {
    Accounted(cfg, t) && t.log.pruned <= now - HOUR_MS
  }

  lemma OpKeepsAccounted(cfg: Config, t: Turn, op: Op, at: At)
    requires May(cfg, t, op, at) && AccountedAt(cfg, t, at.now)
    ensures AccountedAt(cfg, Do(cfg, t, op, at), at.now)
  {
    match op
    case ReserveOp(cid, ip, principal, ref) =>
      ReserveKeepsAccounted(cfg, t, cid, ip, principal, at.now, ref);
      TripKeepsAccounted(cfg, Reserve(cfg, t, cid, ip, principal, at.now, ref), at.now);
    case RollbackOp(cid, ref) => RollbackKeepsAccounted(cfg, t, cid, ref);
    case GrantOp(cid, ref, expiresAt) => GrantKeepsAccounted(cfg, t, cid, ref, expiresAt);
    case PruneIssues => PruneKeepsAccounted(cfg, t, at.now);
    case _ =>
      OthersLeaveTheHistory(cfg, t, op, at);
      OthersKeepTheEstimate(cfg, t, op, at);
  }

  lemma {:induction false} RunIsAccounted(cfg: Config, t: Trace)
    requires Possible(cfg, t)
    ensures AccountedAt(cfg, Run(cfg, t).t, Now(t))
  {
    if t.After? {
      RunHealthy(cfg, t.before);
      RunIsAccounted(cfg, t.before);
      var s := Run(cfg, t.before);
      forall x, op | AccountedAt(cfg, x, t.env.now) && May(cfg, x, op, AtStep(cfg, s, t.event, t.env))
        ensures AccountedAt(cfg, Do(cfg, x, op, AtStep(cfg, s, t.event, t.env)), t.env.now)
      {
        OpKeepsAccounted(cfg, x, op, AtStep(cfg, s, t.event, t.env));
      }
      StepKeeps(cfg, s, t.event, t.env, x => AccountedAt(cfg, x, t.env.now));
    } else {
      BootIsAccounted(cfg, t.s, t.at);
    }
  }

  lemma BootIsAccounted(cfg: Config, s: Sys, at: int)
    requires Boot(s, at)
    ensures AccountedAt(cfg, s.t, at)
  {
    assert s.t.log.booted + s.t.log.issues == s.t.history;
    assert cfg.reservation * 0 == 0;
  }

  // ----- what follows for every run -----

  /** The estimate over any run without a month roll or an authoritative sync; and when a reservation is
  rolled back it is fully there to be subtracted, so the clamp at zero never fires. */
  lemma EstimateAddsUp(cfg: Config, t: Trace)
    requires Possible(cfg, t)
    ensures var u := Run(cfg, t).t;
            && (u.log.resets == 0 ==>
                  u.usage.pessimistic == u.log.base + cfg.reservation * |u.log.issues| + u.log.corrections)
            && (forall ref :: ref in u.log.open && u.log.resets == 0 ==> u.usage.pessimistic >= cfg.reservation)
  {
    RunIsAccounted(cfg, t);
    var u := Run(cfg, t).t;
    forall ref | ref in u.log.open && u.log.resets == 0 ensures u.usage.pessimistic >= cfg.reservation {
      RollbackKeepsAccounted(cfg, u, "", ref);
    }
  }

  /** The history holds one row for each issuance not rolled back, in order, and nothing else: exactly
  those that have not aged out. */
  lemma HistoryIsExact(cfg: Config, t: Trace)
    requires Possible(cfg, t)
    ensures var u := Run(cfg, t).t;
            && u.history == IssuesFrom(u.log.booted + u.log.issues, u.log.pruned)
            && OncePerIssue(u.log.issues) && u.log.pruned <= Now(t) - HOUR_MS
  {
    RunIsAccounted(cfg, t);
  }

  /** Rolling one reservation back leaves every other one untouched: its entry, its record, its cached
  grant and its history row. */
  lemma RollbackIsLocal(cfg: Config, t: Turn, cid: string, ref: Ref, amount: nat)
    ensures var r := Rollback(t, cid, ref, amount);
            && r.creds == t.creds && r.ledger == t.ledger && r.deny == t.deny
            && (forall c :: c in t.active && t.active[c] != ref ==> c in r.active && r.active[c] == t.active[c])
            && (forall c :: c in r.active ==> c in t.active && r.active[c] == t.active[c])
            && (forall i :: i in r.history <==> i in t.history && i.ref != ref)
            && (cid in t.active && t.active[cid] == ref ==> r.active == t.active - {cid} && r.cache == t.cache - {cid})
            && (cid !in t.active || t.active[cid] != ref ==> r.active == t.active && r.cache == t.cache)
            && r.usage.cf == t.usage.cf && (t.usage.killActive <==> r.usage.killActive)
  {
    WithoutIssueDrops(t.history, ref);
  }

  // ----- the hourly cap -----

  /** Each row found fewer than `cap` rows of its IP in the hour before it. */
  predicate Capped(rows: seq<Issue>, cap: nat) {
    rows == [] ||
    (var init, last := rows[..|rows| - 1], rows[|rows| - 1];
     Capped(init, cap) && IssuedBy(init, last.ip, last.issuedAt - HOUR_MS) < cap)
  }

  function IssuedWithin(rows: seq<Issue>, ip: string, since: int, until: int): nat {
    if rows == [] then 0
    else
      var last := rows[|rows| - 1];
      IssuedWithin(rows[..|rows| - 1], ip, since, until)
      + (if last.ip == ip && since <= last.issuedAt <= until then 1 else 0)
  }

  lemma {:induction false} WithinIsFewer(rows: seq<Issue>, ip: string, since: int, until: int, from: int)
    requires from <= since
    ensures IssuedWithin(rows, ip, since, until) <= IssuedBy(rows, ip, from)
  {
    if rows != [] {
      WithinIsFewer(rows[..|rows| - 1], ip, since, until, from);
    }
  }

  /** The checks made one by one bound every closed hour. */
  lemma {:induction false} CappedHours(rows: seq<Issue>, cap: nat, ip: string, since: int)
    requires Capped(rows, cap)
    ensures IssuedWithin(rows, ip, since, since + HOUR_MS) <= cap
  {
    if rows != [] {
      var init, last := rows[..|rows| - 1], rows[|rows| - 1];
      CappedHours(init, cap, ip, since);
      if last.ip == ip && since <= last.issuedAt <= since + HOUR_MS {
        WithinIsFewer(init, ip, since, since + HOUR_MS, last.issuedAt - HOUR_MS);
      }
    }
  }

  lemma {:induction false} WithoutIssuesFewer(rows: seq<Issue>, ref: Ref, ip: string, since: int)
    ensures IssuedBy(WithoutIssue(rows, ref), ip, since) <= IssuedBy(rows, ip, since)
  {
    if rows != [] {
      var init, last := rows[..|rows| - 1], rows[|rows| - 1];
      WithoutIssuesFewer(init, ref, ip, since);
      var kept := WithoutIssue(init, ref);
      assert (kept + [last])[..|kept|] == kept;
    }
  }

  lemma CappedNext(rows: seq<Issue>, last: Issue, cap: nat)
    ensures Capped(rows + [last], cap) <==> Capped(rows, cap) && IssuedBy(rows, last.ip, last.issuedAt - HOUR_MS) < cap
  {
    assert (rows + [last])[..|rows|] == rows;
  }

  lemma {:induction false} WithoutKeepsCapped(rows: seq<Issue>, ref: Ref, cap: nat)
    requires Capped(rows, cap)
    ensures Capped(WithoutIssue(rows, ref), cap)
  {
    if rows != [] {
      var init, last := rows[..|rows| - 1], rows[|rows| - 1];
      assert rows == init + [last];
      CappedNext(init, last, cap);
      WithoutKeepsCapped(init, ref, cap);
      WithoutIssuesFewer(init, ref, last.ip, last.issuedAt - HOUR_MS);
      CappedNext(WithoutIssue(init, ref), last, cap);
      WithoutIssueAppend(init, last, ref);
    }
  }

  lemma {:induction false} PrunedCountsTheSame(rows: seq<Issue>, pruned: int, ip: string, since: int)
    requires pruned <= since
    ensures IssuedBy(IssuesFrom(rows, pruned), ip, since) == IssuedBy(rows, ip, since)
  {
    if rows != [] {
      var init, last := rows[..|rows| - 1], rows[|rows| - 1];
      PrunedCountsTheSame(init, pruned, ip, since);
      var kept := IssuesFrom(init, pruned);
      assert (kept + [last])[..|kept|] == kept;
    }
  }

  ghost predicate CappedAt(cfg: Config, t: Turn, now: int) {
    AccountedAt(cfg, t, now) && Capped(t.log.booted + t.log.issues, cfg.maxIssuePerHourPerIp)
  }

  lemma AppendCapped(booted: seq<Issue>, issues: seq<Issue>, pruned: int, issue: Issue, cap: nat)
    requires pruned <= issue.issuedAt - HOUR_MS && Capped(booted + issues, cap)
    requires IssuedBy(IssuesFrom(booted + issues, pruned), issue.ip, issue.issuedAt - HOUR_MS) < cap
    ensures Capped(booted + (issues + [issue]), cap)
  {
    var all := booted + issues;
    PrunedCountsTheSame(all, pruned, issue.ip, issue.issuedAt - HOUR_MS);
    assert (all + [issue])[..|all|] == all;
    assert booted + (issues + [issue]) == all + [issue];
  }

  lemma ReserveKeepsCapped(cfg: Config, t: Turn, op: Op, at: At)
    requires May(cfg, t, op, at) && CappedAt(cfg, t, at.now) && op.ReserveOp?
    ensures Capped(t.log.booted + (t.log.issues + [Issue(op.ip, at.now, op.ref)]), cfg.maxIssuePerHourPerIp)
  {
    AppendCapped(t.log.booted, t.log.issues, t.log.pruned, Issue(op.ip, at.now, op.ref), cfg.maxIssuePerHourPerIp);
  }

  lemma OpKeepsCapped(cfg: Config, t: Turn, op: Op, at: At)
    requires May(cfg, t, op, at) && CappedAt(cfg, t, at.now)
    ensures CappedAt(cfg, Do(cfg, t, op, at), at.now)
  {
    OpKeepsAccounted(cfg, t, op, at);
    match op
    case ReserveOp(_, _, _, _) => ReserveKeepsCapped(cfg, t, op, at);
    case RollbackOp(_, ref) =>
      WithoutFromConcat(t.log.booted, t.log.issues, ref);
      WithoutKeepsCapped(t.log.booted + t.log.issues, ref, cfg.maxIssuePerHourPerIp);
    case GrantOp(_, _, _) =>
    case PruneIssues =>
    case _ => OthersLeaveTheHistory(cfg, t, op, at);
  }

  lemma {:induction false} RunIsCapped(cfg: Config, t: Trace)
    requires Possible(cfg, t) && Capped(Run(cfg, t).t.log.booted, cfg.maxIssuePerHourPerIp)
    ensures CappedAt(cfg, Run(cfg, t).t, Now(t))
  {
    RunIsAccounted(cfg, t);
    if t.After? {
      RunHealthy(cfg, t.before);
      var s := Run(cfg, t.before);
      StepCarries(cfg, s, t.event, t.env);
      RunIsCapped(cfg, t.before);
      forall x, op | CappedAt(cfg, x, t.env.now) && May(cfg, x, op, AtStep(cfg, s, t.event, t.env))
        ensures CappedAt(cfg, Do(cfg, x, op, AtStep(cfg, s, t.event, t.env)), t.env.now)
      {
        OpKeepsCapped(cfg, x, op, AtStep(cfg, s, t.event, t.env));
      }
      StepKeeps(cfg, s, t.event, t.env, x => CappedAt(cfg, x, t.env.now));
    } else {
      assert t.s.t.log.booted + t.s.t.log.issues == t.s.t.log.booted;
    }
  }

  /** No IP is ever granted more than its hourly cap: over any run and in any closed hour, counting the
  rows restored at boot, which are such a history themselves. */
  lemma NoHourExceedsTheCap(cfg: Config, t: Trace, ip: string, since: int)
    requires Possible(cfg, t) && Capped(Run(cfg, t).t.log.booted, cfg.maxIssuePerHourPerIp)
    ensures var u := Run(cfg, t).t;
            && IssuedWithin(u.log.booted + u.log.issues, ip, since, since + HOUR_MS) <= cfg.maxIssuePerHourPerIp
            && Capped(u.history, cfg.maxIssuePerHourPerIp)
  {
    RunIsCapped(cfg, t);
    var u := Run(cfg, t).t;
    CappedHours(u.log.booted + u.log.issues, cfg.maxIssuePerHourPerIp, ip, since);
    FromKeepsCapped(u.log.booted + u.log.issues, u.log.pruned, cfg.maxIssuePerHourPerIp);
  }

  lemma {:induction false} FromFewer(rows: seq<Issue>, pruned: int, ip: string, since: int)
    ensures IssuedBy(IssuesFrom(rows, pruned), ip, since) <= IssuedBy(rows, ip, since)
  {
    if rows != [] {
      var init, last := rows[..|rows| - 1], rows[|rows| - 1];
      FromFewer(init, pruned, ip, since);
      var kept := IssuesFrom(init, pruned);
      assert (kept + [last])[..|kept|] == kept;
    }
  }

  lemma {:induction false} FromKeepsCapped(rows: seq<Issue>, pruned: int, cap: nat)
    requires Capped(rows, cap)
    ensures Capped(IssuesFrom(rows, pruned), cap)
  {
    if rows != [] {
      var init, last := rows[..|rows| - 1], rows[|rows| - 1];
      assert rows == init + [last];
      CappedNext(init, last, cap);
      FromKeepsCapped(init, pruned, cap);
      FromFewer(init, pruned, last.ip, last.issuedAt - HOUR_MS);
      CappedNext(IssuesFrom(init, pruned), last, cap);
      IssuesFromAppend(init, last, pruned);
    }
  }
}
