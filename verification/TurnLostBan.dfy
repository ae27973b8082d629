/** One crash after which a banned principal is served again: another credential's address was longer than
the reader of the snapshot accepts, so the file that held the ban is refused. */
module TurnLostBan {

  import opened Common
  import opened Sums
  import opened TurnState
  import opened TurnMachine
  import opened TurnOps
  import opened TurnRuns
  import opened TurnCrash
  import opened TurnFile
  import opened TurnReload

  const CFG := Config(1000, 10, 0, 50, 1000, 10, 100_000, 100, false, 1_000_000, 9)
  const AT := HOUR_MS
  const LONG := seq(65, (_: nat) => 'x')

  function Here(cids: seq<string>): Env {
    Env(AT, 0, cids, ["c", "d"])
  }

  // ----- the states -----

  const FIRST := Cred("c", "i", "p", AT, AT + 1000, 10, 0, false, false, 0, 0)
  const T0 := Turn(Usage(0, 10, 0, 10, false, 0, NoError, false, false, 0), map["c" := 0], map[0 := FIRST], [],
                   map[], [], map[], map[], Log([], [], {}, 0, 10, 0, 0, 0, [], map[]))
  const S0 := Sys(T0, true, map[], 1, 0, 0, false, false, false)

  // A request with an over-long address is served.
  const OTHER := Cred("d", LONG, "q", AT, AT + 1000, 10, 0, false, false, 0, 0)
  const T1 := T0.(usage := T0.usage.(bytes := 20, pessimistic := 20), active := map["c" := 0, "d" := 1],
                  creds := map[0 := FIRST, 1 := OTHER], history := [Issue(LONG, AT, 1)], inFlight := map["d" := 1],
                  log := Log([], [Issue(LONG, AT, 1)], {1}, 0, 10, 0, 0, 0, [], map[]))
  const S1 := S0.(t := T1, tasks := map[1 := Issuing("d", 1, AT + 1000)], nextId := 2)

  // A usage poll finds the first credential at its limit.
  const S2 := S1.(tasks := S1.tasks[2 := Polling(1)], nextId := 3, abuseGeneration := 1, abuseBusy := true)
  const S3 := S2.(tasks := S1.tasks[2 := ApplyingRows([("c", 50)])])

  // It is settled, denied and queued.
  const BAN := Deny(AT + 1_000_000, AT, "i")
  const CONDEMNED := FIRST.(pessimistic := 50, cfActual := 50, settled := true, revokePending := true,
    revokeAttempts := 1, lastAttemptAt := AT)
  const T4 := T1.(usage := T1.usage.(bytes := 60, pessimistic := 60), creds := map[0 := CONDEMNED, 1 := OTHER],
                  deny := map[PrincipalKey("p") := BAN, CidKey("c") := BAN], ledger := [Row("i", 50, AT, 0)],
                  log := T1.log.(corrections := 40, written := [0]))
  const S4 := S3.(t := T4, tasks := S1.tasks[2 := AbuseFlushing("c", 0, [])])
  const S5 := S4.(tasks := S1.tasks[2 := AbuseRevoking("c", 0, [])])

  // ----- the steps -----

  lemma HasRoom()
    ensures Closed(T0) && WithinIpCaps(CFG, T0, LONG, AT)
  {
    assert LONG != "i";
    TotalOfOne("c", 0);
    assert Shares(T0.active, T0.creds, LONG, AT - HOUR_MS) == map["c" := 0];
  }

  lemma SweepsNothing()
    ensures Closed(T0) && Housekeep(T0, 0, ["c"], AT) == T0
  {
    assert PruneHistory(RollMonth(T0, 0), AT) == T0;
    OneExpires(T0, "c", AT);
    assert PruneDenyList(T0, AT).deny == map[];
  }

  lemma Serves()
    requires WellFormed(S0)
    ensures Step(CFG, S0, Request("d", LONG, "q"), Here(["c"])) == S1
  {
    SweepsNothing();
    HasRoom();
    var begun := T0.(inFlight := map["d" := 1]);
    assert T0.(cache := T0.cache - {"d"}, inFlight := T0.inFlight["d" := 1]) == begun;
    assert Reserve(CFG, begun, "d", LONG, "q", AT, 1) == T1;
    assert StartFresh(CFG, S0, "d", LONG, "q", Here(["c"])) == S1;
  }

  lemma PollStarts()
    requires WellFormed(S1)
    ensures Step(CFG, S1, StartAbusePoll, Here(["c", "d"])) == S2
  {
    assert "c" in T1.active;
  }

  lemma PollAnswers()
    requires WellFormed(S2)
    ensures Step(CFG, S2, Resume(2, Rows([("c", 50)], false)), Here(["c", "d"])) == S3
  {
  }

  const T1C := T1.(usage := T1.usage.(bytes := 60, pessimistic := 60),
                   creds := map[0 := FIRST.(pessimistic := 50, cfActual := 50), 1 := OTHER],
                   log := T1.log.(corrections := 40))

  lemma OneStrike(deny: map<DenyKey, Deny>)
    requires deny == map[PrincipalKey("p") := BAN, CidKey("c") := BAN]
    ensures Strikes(deny, "i", AT) == 1
  {
    assert (set key | key in deny && key.PrincipalKey? && deny[key].ip == "i" && deny[key].until > AT)
           == {PrincipalKey("p")};
  }

  lemma DeniesBoth(t: Turn)
    requires t.deny == map[]
    ensures ApplyDeny(CFG, t, "p", "i", "c", AT) == t.(deny := T4.deny)
  {
    OneStrike(t.deny[PrincipalKey("p") := BAN][CidKey("c") := BAN]);
  }

  lemma CondemnsIt()
    ensures 0 in T1C.creds && Condemn(CFG, T1C, "c", 0, 50, AT) == T4
  {
    DeniesBoth(Settle(T1C, 0, 50, AT));
  }

  lemma RowIsCounted()
    ensures Correct(T1, "c", 50) == T1C
  {
    assert T1C.creds == T1.creds[0 := FIRST.(pessimistic := 50, cfActual := 50)];
  }

  lemma NoMoreRows()
    ensures [("c", 50)][1..] == []
  {
  }

  lemma RowApplies()
    ensures Closed(T1) && OnRow(CFG, S3, 2, [("c", 50)], Here(["c", "d"])) == S4
  {
    RowIsCounted();
    CondemnsIt();
    NoMoreRows();
    assert Go(WithTurn(S3, T4), 2, AbuseFlushing("c", 0, [])) == S4;
  }

  lemma RowCondemns()
    requires WellFormed(S3)
    ensures Step(CFG, S3, Resume(2, Continue), Here(["c", "d"])) == S4
    ensures Condemns(CFG, S3, Resume(2, Continue), Here(["c", "d"]))
  {
    RowApplies();
  }

  lemma FlushAnswers()
    requires WellFormed(S4)
    ensures Step(CFG, S4, Resume(2, Flush(true)), Here(["c", "d"])) == S5
  {
  }

  // ----- the history -----

  const FILE0 := FC.Store(T0, false, true, FC.Loaded, -1, [], FC.Holding(T0))
  const FILE1 := FILE0.(memory := T1, dirty := true)
  const FILE4 := FC.Store(T4, false, true, FC.Loaded, 0, [FC.Flush(true, -1, FC.Waiting)], FC.Holding(T0))
  const FILE5 := FILE4.(flushes := [FC.Flush(true, -1, FC.Writing(T4))])
  const FILE6 := FILE4.(flushes := [FC.Flush(true, -1, FC.Settled(true))], disk := FC.Holding(T4))

  const BANNED := Mark(0, "c", "p", AT + 1_000_000, [Row("i", 50, AT, 0)], 0)

  const H0 := Woken(World(S0, FILE0, map[]), AT)
  const H1 := Then(H0, Act(Request("d", LONG, "q"), Here(["c"]), true))
  const H2 := Then(H1, Act(StartAbusePoll, Here(["c", "d"]), true))
  const H3 := Then(H2, Act(Resume(2, Rows([("c", 50)], false)), Here(["c", "d"]), true))
  const H4 := Then(H3, Act(Resume(2, Continue), Here(["c", "d"]), true))
  const H5 := Then(H4, Start(0))
  const H6 := Then(H5, TurnCrash.End(0, FC.Wrote))
  const H7 := Then(H6, Act(Resume(2, Flush(true)), Here(["c", "d"]), true))

  lemma Follows(h: History, w: World, d: Deed, r: World)
    requires Happens(CFG, h) && Replay(CFG, h) == w && Allowed(w, d) && (d.Act? ==> Clock(h) <= d.env.now)
    requires Next(CFG, w, d) == r
    ensures Happens(CFG, Then(h, d)) && Replay(CFG, Then(h, d)) == r && WellFormed(r.sys)
  {
    HistoryProtects(CFG, Then(h, d));
  }

  lemma Wakes()
    ensures Happens(CFG, H0) && WellFormed(S0)
  {
    assert T0.history == IssuesFrom(T0.history, 0);
    assert Boot(S0, AT);
  }

  lemma TheLongAddressIsServed()
    ensures Happens(CFG, H1) && Replay(CFG, H1) == World(S1, FILE1, map[]) && WellFormed(S1)
  {
    Wakes();
    Serves();
    Follows(H0, H0.w, H1.deed, World(S1, FILE1, map[]));
  }

  lemma ThePollAnswers()
    ensures Happens(CFG, H3) && Replay(CFG, H3) == World(S3, FILE1, map[]) && WellFormed(S3)
  {
    TheLongAddressIsServed();
    PollStarts();
    Follows(H1, World(S1, FILE1, map[]), H2.deed, World(S2, FILE1, map[]));
    PollAnswers();
    Follows(H2, World(S2, FILE1, map[]), H3.deed, World(S3, FILE1, map[]));
  }

  lemma TheMark()
    ensures 0 in T4.creds && MarkOf(CFG, T4, "c", 0, AT, 0) == BANNED
  {
    assert T4.ledger[..0] == [] && RowsOf([], 0) == [];
    assert RowsOf(T4.ledger, 0) == [Row("i", 50, AT, 0)];
    assert PrincipalOf(CONDEMNED, "c") == "p";
  }

  lemma ItIsCondemned()
    ensures Happens(CFG, H4) && Replay(CFG, H4) == World(S4, FILE4, map[2 := BANNED]) && WellFormed(S4)
  {
    ThePollAnswers();
    RowCondemns();
    TheMark();
    var w := World(S3, FILE1, map[]);
    CondemnNext(CFG, w, H4.deed);
    assert FC.Request(Remember(FILE1, S3, S4, true), true) == FILE4;
    Follows(H3, w, H4.deed, World(S4, FILE4, map[2 := BANNED]));
  }

  lemma ItIsBeingWritten()
    ensures Happens(CFG, H5) && Replay(CFG, H5) == World(S4, FILE5, map[2 := BANNED]) && WellFormed(S4)
  {
    ItIsCondemned();
    var w := World(S4, FILE4, map[2 := BANNED]);
    assert Next(CFG, w, H5.deed) == World(S4, FILE5, map[2 := BANNED]);
    Follows(H4, w, H5.deed, World(S4, FILE5, map[2 := BANNED]));
  }

  lemma ItIsOnDisk()
    ensures Happens(CFG, H6) && Replay(CFG, H6) == World(S4, FILE6, map[2 := BANNED]) && WellFormed(S4)
  {
    ItIsBeingWritten();
    var w := World(S4, FILE5, map[2 := BANNED]);
    assert Next(CFG, w, H6.deed) == World(S4, FILE6, map[2 := BANNED]);
    Follows(H5, w, H6.deed, World(S4, FILE6, map[2 := BANNED]));
  }

  const FILE7 := FILE6.(dirty := true)

  lemma ItIsAboutToBeRevoked()
    ensures Happens(CFG, H7) && Replay(CFG, H7) == World(S5, FILE7, map[2 := BANNED])
  {
    ItIsOnDisk();
    FlushAnswers();
    assert Clock(H6) == Clock(H5) == Clock(H4) == AT;
    Follows(H6, World(S4, FILE6, map[2 := BANNED]), H7.deed, World(S5, FILE7, map[2 := BANNED]));
  }

  // ----- the restart -----

  const NEW := Sys(NewTurn(0), false, map[], 0, 0, 0, false, false, false)
  const SYNCING := NEW.(tasks := map[0 := Totalling(1, false)], nextId := 1, globalGeneration := 1)
  const READY := Sys(NewTurn(0).(usage := FreshMonth(0).(fromProvider := true, lastSyncAt := AT),
                                 log := NewTurn(0).log.(resets := 1)), true, map[], 1, 1, 0, false, false, false)

  function Alone(): Env {
    Env(AT, 0, [], [])
  }

  const R0 := Booted(NEW, AT)
  const R1 := After(R0, SyncNow, Alone())
  const R2 := After(R1, Resume(0, MonthTotal(0, false)), Alone())

  lemma SyncStarts()
    requires WellFormed(NEW)
    ensures Step(CFG, NEW, SyncNow, Alone()) == SYNCING
  {
  }

  lemma NothingIsActive()
    ensures Closed(NewTurn(0)) && ActivePessimistic(NewTurn(0)) == 0
  {
    assert Estimates(NewTurn(0)) == map[];
  }

  lemma TotalApplies()
    ensures Closed(NewTurn(0)) && AppliedTotal(CFG, NewTurn(0), 0, false, 0, AT) == READY.t
  {
  }

  lemma NothingTrips()
    ensures Closed(READY.t) && KillSwitch(CFG, READY, [], AT) == READY
  {
  }

  lemma SyncAnswers()
    requires WellFormed(SYNCING)
    ensures Step(CFG, SYNCING, Resume(0, MonthTotal(0, false)), Alone()) == READY
  {
    NothingIsActive();
    TotalApplies();
    NothingTrips();
    assert SYNCING.tasks - {0} == map[];
    assert OnTotal(CFG, SYNCING, 0, SYNCING.tasks[0], MonthTotal(0, false), Alone()) == KillSwitch(CFG, READY, [], AT);
  }

  lemma BanGoesUnnoticed()
    requires WellFormed(READY)
    ensures Starts(CFG, READY, "c", "i", "p", Alone())
  {
    var t := READY.t;
    assert PruneHistory(RollMonth(t, 0), AT) == t;
    assert PruneDenyList(t, AT).deny == map[];
    assert Housekeep(t, 0, [], AT) == t;
    assert Shares(t.active, t.creds, "i", AT - HOUR_MS) == map[];
  }

  lemma TheNewProcessRuns()
    ensures Possible(CFG, R2) && Run(CFG, R2) == READY && WellFormed(READY)
  {
    FirstStartBoots(0, AT);
    assert Boot(NEW, AT);
    SyncStarts();
    RunHealthy(CFG, R1);
    SyncAnswers();
    RunHealthy(CFG, R2);
  }

  // ----- what happened -----

  lemma TheFileIsRefused(d: S.Saved)
    requires Written(T4, d)
    ensures !FileFits(T4, d) && Restarts(NEW, S.Write(d), AT)
  {
    assert !CredFits(T4.creds[T4.active["d"]]) && KeepsEntry("d", T4.creds[T4.active["d"]]);
    AcceptedIff(T4, d, AT);
  }

  lemma SomeFile() returns (d: S.Saved)
    ensures Written(T4, d)
  {
    d := EveryStateIsWritten(T4);
  }

  lemma TheBanIsOnDisk()
    ensures Happens(CFG, H7) && Clock(H7) == AT
    ensures var w := Replay(CFG, H7);
            && 2 in w.sys.tasks && w.sys.tasks[2].AbuseRevoking? && 2 in w.marks && w.marks[2] == BANNED
            && w.store.disk == FC.Holding(T4)
  {
    ItIsAboutToBeRevoked();
    assert Clock(H7) == AT;
  }

  lemma TheBanIsIgnored(d: S.Saved)
    requires Written(T4, d)
    ensures Possible(CFG, R2) && First(R2).at == AT && Restarts(First(R2).s, S.Write(d), AT) && Now(R2) == AT
    ensures Closed(Run(CFG, R2).t) && Starts(CFG, Run(CFG, R2), "c", "i", "p", Alone())
  {
    TheFileIsRefused(d);
    TheNewProcessRuns();
    BanGoesUnnoticed();
    assert First(R2) == R0;
  }

  /** The ban of principal "p" is on disk when its revoke is called, the process crashes and restarts from
  that file, a complete monthly total turns issuance on, and while the ban should last a request of that
  principal starts an issuance. */
  lemma TheBanIsLost(d: S.Saved)
    requires Written(T4, d)
    ensures Happens(CFG, H7)
    ensures var w := Replay(CFG, H7);
            && 2 in w.sys.tasks && w.sys.tasks[2].AbuseRevoking? && 2 in w.marks && w.marks[2].principal == "p"
            && w.store.disk == FC.Holding(T4) && DeniedUntil(T4, PrincipalKey("p"), w.marks[2].until)
            && Now(R2) < w.marks[2].until
    ensures Possible(CFG, R2) && Clock(H7) <= First(R2).at && Restarts(First(R2).s, S.Write(d), First(R2).at)
    ensures Closed(Run(CFG, R2).t) && Starts(CFG, Run(CFG, R2), "c", "i", "p", Alone())
  {
    TheBanIsOnDisk();
    TheBanIsIgnored(d);
  }
}
