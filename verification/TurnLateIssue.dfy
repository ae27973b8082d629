/** One run in which the kill-switch sweep deletes a credential that was issued while it was suspended, and
with it the bytes confirmed for that credential. */
module TurnLateIssue {

  import opened Common
  import opened Sums
  import opened TurnState
  import opened TurnMachine
  import opened TurnOps
  import opened TurnRuns
  import opened TurnSettlement

  const CFG := Config(1000, 10, 0, 1000, 1000, 10, 100, 100, true, 0, 1)
  const AT := HOUR_MS

  function At(now: int, month: int): Env {
    Env(now, month, ["c"], ["c"])
  }

  // ----- the states -----

  const FIRST := Cred("c", "i", "p", AT, AT + 1000, 10, 0, false, false, 0, 0)
  const T0 := Turn(Usage(0, 200, 200, 10, false, 0, NoError, false, false, 0), map["c" := 0], map[0 := FIRST], [],
                   map[], [], map[], map[], Log([], [], {}, 0, 10, 0, 0, 0, [], map[]))
  const S0 := Sys(T0, true, map[], 1, 0, 0, false, false, false)

  // A monthly poll reads a total at the limit: the switch trips and the sweep queues the one credential.
  const S1 := S0.(tasks := map[1 := Totalling(1, true)], nextId := 2, globalGeneration := 1, globalBusy := true)
  const T2 := T0.(usage := Usage(0, 200, 200, 10, false, 0, Truncated, true, true, AT),
                  creds := map[0 := FIRST.(settled := true, revokePending := true, revokeAttempts := 1,
                    lastAttemptAt := AT)])
  const S2 := Sys(T2, true, map[2 := SweepFlushing(["c"])], 3, 1, 0, false, false, false)

  // The month rolls over, and the next request is served with a new credential.
  const ISSUE := Issue("i", AT + 1, 3)
  const LATE := Cred("c", "i", "p", AT + 1, AT + 1001, 10, 0, false, false, 0, 0)
  const T3 := T2.(usage := Usage(1, 10, 0, 10, false, 0, NoError, false, false, 0),
                  active := map["c" := 3], creds := T2.creds[3 := LATE], history := [ISSUE], inFlight := map["c" := 3],
                  log := Log([], [ISSUE], {3}, 1, 10, 0, 1, 1, [], map[0 := Replaced]))
  const S3 := S2.(t := T3, tasks := map[2 := SweepFlushing(["c"]), 3 := Issuing("c", 3, AT + 1001)], nextId := 4)

  // A usage poll confirms five bytes of it.
  const S4 := S3.(tasks := S3.tasks[4 := Polling(1)], nextId := 5, abuseGeneration := 1, abuseBusy := true)
  const S5 := S4.(tasks := S3.tasks[4 := ApplyingRows([("c", 5)])])
  const T6 := T3.(creds := T3.creds[3 := LATE.(cfActual := 5)])
  const S6 := S5.(t := T6, tasks := S3.tasks[4 := ApplyingRows([])])

  // The sweep goes on, and takes the entry it finds.
  const S7 := S6.(tasks := S6.tasks[2 := SweepNext(["c"])])
  const S8 := S7.(tasks := S6.tasks[2 := SweepRevoking("c", 3, [])])

  // ----- the steps -----

  lemma Polls()
    requires WellFormed(S0)
    ensures Step(CFG, S0, StartGlobalPoll, At(AT, 0)) == S1
  {
  }

  const APPLIED := T0.(usage := T0.usage.(truncated := true, error := Truncated))
  const ENDED := Sys(APPLIED, true, map[], 2, 1, 0, false, false, false)

  lemma SwitchTrips()
    ensures Closed(APPLIED) && KillSwitch(CFG, ENDED, ["c"], AT) == S2
  {
    var tripped := Trip(CFG, APPLIED, AT);
    OneIsMarked(tripped, "c", AT);
    assert MarkOne(tripped, "c", AT) == T2;
  }

  lemma Trips()
    requires WellFormed(S1)
    ensures Step(CFG, S1, Resume(1, MonthTotal(200, true)), At(AT, 0)) == S2
  {
    OneExpires(T0, "c", AT);
    assert AppliedTotal(CFG, T0, 200, true, ActivePessimistic(T0), AT) == APPLIED;
    assert S1.tasks - {1} == map[];
    assert OnTotal(CFG, S1, 1, S1.tasks[1], MonthTotal(200, true), At(AT, 0)) == KillSwitch(CFG, ENDED, ["c"], AT);
    SwitchTrips();
  }

  const SWEPT := T2.(usage := FreshMonth(1), log := T2.log.(resets := 1, clears := 1, pruned := 1))

  lemma SweptClean()
    ensures Closed(T2) && Housekeep(T2, 1, ["c"], AT + 1) == SWEPT
  {
    assert PruneHistory(RollMonth(T2, 1), AT + 1) == SWEPT;
    OneExpires(SWEPT, "c", AT + 1);
    assert PruneDenyList(SWEPT, AT + 1).deny == map[];
  }

  lemma HasRoom()
    ensures Closed(SWEPT) && WithinIpCaps(CFG, SWEPT, "i", AT + 1)
  {
    TotalOfOne("c", 10);
    assert Shares(SWEPT.active, SWEPT.creds, "i", AT + 1 - HOUR_MS) == map["c" := 10];
  }

  lemma StartsFresh()
    ensures Closed(SWEPT) && StartFresh(CFG, S2.(t := SWEPT), "c", "i", "p", At(AT + 1, 1)) == S3
  {
    HasRoom();
    var begun := SWEPT.(inFlight := map["c" := 3]);
    assert SWEPT.(cache := SWEPT.cache - {"c"}, inFlight := SWEPT.inFlight["c" := 3]) == begun;
    assert Reserve(CFG, begun, "c", "i", "p", AT + 1, 3) == T3;
  }

  lemma Reissues()
    requires WellFormed(S2)
    ensures Step(CFG, S2, Request("c", "i", "p"), At(AT + 1, 1)) == S3
  {
    SweptClean();
    StartsFresh();
  }

  lemma PollStarts()
    requires WellFormed(S3)
    ensures Step(CFG, S3, StartAbusePoll, At(AT + 1, 1)) == S4
  {
    assert "c" in T3.active;
  }

  lemma PollAnswers()
    requires WellFormed(S4)
    ensures Step(CFG, S4, Resume(4, Rows([("c", 5)], false)), At(AT + 1, 1)) == S5
  {
  }

  lemma RowApplies()
    requires WellFormed(S5)
    ensures Step(CFG, S5, Resume(4, Continue), At(AT + 1, 1)) == S6
  {
    assert [("c", 5)][1..] == [];
    assert Correct(T3, "c", 5) == T6;
  }

  lemma SweepGoesOn()
    requires WellFormed(S6)
    ensures Step(CFG, S6, Resume(2, Flush(true)), At(AT + 1, 1)) == S7
  {
  }

  lemma SweepFinds()
    requires WellFormed(S7)
    ensures Step(CFG, S7, Resume(2, Continue), At(AT + 1, 1)) == S8
  {
    assert ["c"][1..] == [];
  }

  // ----- the run -----

  const BOOTED := Booted(S0, AT)
  const R2 := After(After(BOOTED, StartGlobalPoll, At(AT, 0)), Resume(1, MonthTotal(200, true)), At(AT, 0))
  const R4 := After(After(R2, Request("c", "i", "p"), At(AT + 1, 1)), StartAbusePoll, At(AT + 1, 1))
  const R6 := After(After(R4, Resume(4, Rows([("c", 5)], false)), At(AT + 1, 1)), Resume(4, Continue), At(AT + 1, 1))
  const R8 := After(After(R6, Resume(2, Flush(true)), At(AT + 1, 1)), Resume(2, Continue), At(AT + 1, 1))

  lemma Boots()
    ensures Boot(S0, AT)
  {
    assert T0.history == IssuesFrom(T0.history, 0);
  }

  lemma OneEntry(t: Turn, ref: Ref)
    requires t.active == map["c" := ref]
    ensures Visits(["c"], t)
  {
  }

  lemma Reaches(t: Trace, s: Sys, e: Event, env: Env, r: Sys, ref: Ref, next: Ref)
    requires Possible(CFG, t) && Run(CFG, t) == s && Step(CFG, s, e, env) == r
    requires Now(t) <= env.now && env.cids == ["c"] && env.sweepCids == ["c"]
    requires s.t.active == map["c" := ref] && r.t.active == map["c" := next]
    ensures Possible(CFG, After(t, e, env)) && Run(CFG, After(t, e, env)) == r && WellFormed(r)
  {
    OneEntry(s.t, ref);
    OneEntry(r.t, next);
    RunHealthy(CFG, After(t, e, env));
  }

  lemma TheSweepStarts()
    ensures Possible(CFG, R2) && Run(CFG, R2) == S2 && WellFormed(S2)
  {
    Boots();
    Polls();
    Reaches(BOOTED, S0, StartGlobalPoll, At(AT, 0), S1, 0, 0);
    Trips();
    Reaches(R2.before, S1, R2.event, R2.env, S2, 0, 0);
  }

  lemma TheCredentialIsReplaced()
    ensures Possible(CFG, R4) && Run(CFG, R4) == S4 && WellFormed(S4)
  {
    TheSweepStarts();
    Reissues();
    Reaches(R2, S2, R4.before.event, R4.before.env, S3, 0, 3);
    PollStarts();
    Reaches(R4.before, S3, R4.event, R4.env, S4, 3, 3);
  }

  lemma BytesAreConfirmed()
    ensures Possible(CFG, R6) && Run(CFG, R6) == S6 && WellFormed(S6)
  {
    TheCredentialIsReplaced();
    PollAnswers();
    Reaches(R4, S4, R6.before.event, R6.before.env, S5, 3, 3);
    RowApplies();
    Reaches(R6.before, S5, R6.event, R6.env, S6, 3, 3);
  }

  lemma TheSweepReturns()
    ensures Possible(CFG, R8) && Run(CFG, R8) == S8 && WellFormed(S8)
  {
    BytesAreConfirmed();
    SweepGoesOn();
    Reaches(R6, S6, R8.before.event, R8.before.env, S7, 3, 3);
    SweepFinds();
    Reaches(R8.before, S7, R8.event, R8.env, S8, 3, 3);
  }

  lemma FiveBytesGo()
    ensures Keyed(T6) && Confirmed(T6, "i") == 5
    ensures Keyed(Remove(T6, "c", Revoked)) && Confirmed(Remove(T6, "c", Revoked), "i") == 0
  {
    TotalOfOne("c", 5);
    assert Owing(T6.active, T6.creds, "i") == map["c" := 5];
    RemoveForgets(T6, "c", Revoked, "i");
  }

  /** The key still maps to the reservation the sweep captured, its five bytes are confirmed, and the
  successful revoke forgets them: the entry is younger than the sweep that deletes it. */
  lemma LateIssueIsLost(now: int)
    ensures Possible(CFG, R8)
    ensures var s := Run(CFG, R8);
            && 2 in s.tasks && s.tasks[2] == SweepRevoking("c", 3, []) && Active(s.t, "c", 3) && Keyed(s.t)
            && 3 in s.t.creds
            && Confirmed(s.t, "i") == 5
            && var r := OnSweepRevoked(s, 2, s.tasks[2], true, now);
               Keyed(r.t) && Confirmed(r.t, "i") == 0
  {
    TheSweepReturns();
    FiveBytesGo();
    assert OnSweepRevoked(S8, 2, S8.tasks[2], true, now).t == Remove(T6, "c", Revoked);
  }
}
