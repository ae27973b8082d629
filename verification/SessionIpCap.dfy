/** The cap on sessions of one address: what keeps it, and the one event that does not. */
module SessionIpCap {

  import opened Common
  import opened SessionState
  import opened SessionMachine
  import opened SessionChannels

  lemma {:induction false} SubsetIsSmaller<T>(a: set<T>, b: set<T>)
    requires a <= b
    ensures |a| <= |b|
  {
    if a != {} {
      var x :| x in a;
      SubsetIsSmaller(a - {x}, b - {x});
    }
  }

  /** Nobody joins the map, and nobody moves. */
  ghost predicate Stays(a: State, b: State) {
    forall sid ::
      sid in b.nodes && sid in b.sess ==> sid in a.nodes && sid in a.sess && b.sess[sid].ip == a.sess[sid].ip
  }

  lemma StaysCounts(a: State, b: State, ip: string)
    requires Stays(a, b)
    ensures CountByIp(b, ip) <= CountByIp(a, ip)
  {
    SubsetIsSmaller(OfIp(b, ip), OfIp(a, ip));
  }

  lemma StaysTwice(a: State, b: State, c: State)
    requires Stays(a, b) && Stays(b, c)
    ensures Stays(a, c)
  {
  }

  lemma TerminateStays(st: State, sid: Sid, close: bool, preserve: bool, now: int)
    requires sid in st.sess
    ensures Stays(st, Terminate(st, sid, close, preserve, now))
  {
    TerminateShape(st, sid, close, preserve, now);
  }

  lemma {:induction false} TerminateAllStays(st: State, sids: seq<Sid>, now: int)
    ensures Stays(st, TerminateAll(st, sids, now))
  {
    if sids != [] {
      var before := TerminateAll(st, sids[..|sids| - 1], now);
      TerminateAllStays(st, sids[..|sids| - 1], now);
      if sids[|sids| - 1] in before.sess {
        TerminateStays(before, sids[|sids| - 1], true, false, now);
        StaysTwice(st, before, TerminateAll(st, sids, now));
      }
    }
  }

  lemma CloseStays(st: State, ws: Ws, now: int)
    requires ws in st.bound ==> st.bound[ws] in st.sess
    ensures Stays(st, CloseEvent(st, ws, now))
  {
    if ws in st.bound && st.sess[st.bound[ws]].socket == Wired(ws) {
      TerminateStays(StopListening(st, ws), st.bound[ws], false, true, now);
    }
  }

  lemma ServedStays(seen: State, e: Event, sid: Sid)
    requires (e.JoinFrame? || e.LeaveFrame? || e.BlockFrame?) && sid in seen.sess
    ensures e.JoinFrame? ==> Stays(seen, Join(seen, e.ws, sid, e.peers))
    ensures e.LeaveFrame? ==> Stays(seen, Leave(seen, sid))
    ensures e.BlockFrame? ==> Stays(seen, Block(seen, sid, e.target))
  {
    match e
    case JoinFrame(ws, peers) =>
      LeaveShape(seen, sid);
      JoinOne(seen, ws, sid, peers);
      JoinMoves(seen, ws, sid, peers);
    case LeaveFrame(_) => LeaveShape(seen, sid);
    case BlockFrame(_, _) =>
  }

  lemma JoinMoves(st: State, ws: Ws, sid: Sid, peers: seq<Sid>)
    requires sid in st.sess
    ensures sid in Join(st, ws, sid, peers).sess && Join(st, ws, sid, peers).sess[sid].ip == st.sess[sid].ip
  {
    LeaveShape(st, sid);
  }

  lemma FrameStays(st: State, e: Event, now: int)
    requires (e.JoinFrame? || e.LeaveFrame? || e.BlockFrame?) && e.ws in st.bound && st.bound[e.ws] in st.sess
    ensures Stays(st, OnFrame(st, e, now))
  {
    var sid := st.bound[e.ws];
    if !Expired(st.sess[sid], now) {
      ServedStays(Touch(st, sid, now), e, sid);
      StaysTwice(st, Touch(st, sid, now), OnFrame(st, e, now));
    }
  }

  // ----- who joins the map, and who moves -----

  lemma InsertedOf(st: State, s: Session, ip: string)
    requires Numbered(st)
    ensures st.next !in OfIp(st, ip)
            && OfIp(Insert(st, s), ip) == if s.ip == ip then OfIp(st, ip) + {st.next} else OfIp(st, ip)
  {
    assert st.next !in st.sess;
    var r := Insert(st, s);
    assert forall sid :: sid != st.next ==> (sid in OfIp(r, ip) <==> sid in OfIp(st, ip));
    assert st.next in OfIp(r, ip) <==> s.ip == ip;
  }

  lemma InsertCounts(st: State, s: Session, ip: string)
    requires Numbered(st)
    ensures CountByIp(Insert(st, s), ip) == CountByIp(st, ip) + (if s.ip == ip then 1 else 0)
  {
    InsertedOf(st, s, ip);
  }

  lemma EvictedOf(st: State, sid: Sid, now: int, ip: string)
    requires sid in st.nodes && sid in st.sess
    ensures OfIp(Terminate(st, sid, true, false, now), ip) == OfIp(st, ip) - {sid}
  {
    TerminateShape(st, sid, true, false, now);
    var r := Terminate(st, sid, true, false, now);
    assert forall x :: x != sid ==> (x in OfIp(r, ip) <==> x in OfIp(st, ip));
  }

  lemma EvictionCounts(st: State, sid: Sid, now: int, ip: string)
    requires sid in st.nodes && sid in st.sess
    ensures CountByIp(Terminate(st, sid, true, false, now), ip)
            == CountByIp(st, ip) - (if st.sess[sid].ip == ip then 1 else 0)
  {
    EvictedOf(st, sid, now, ip);
    assert sid in OfIp(st, ip) <==> st.sess[sid].ip == ip;
    assert sid !in OfIp(st, ip) ==> OfIp(st, ip) - {sid} == OfIp(st, ip);
  }

  lemma MovedOf(st: State, ws: Ws, sid: Sid, from: string, now: int, ip: string)
    requires sid in st.nodes && sid in st.sess
    ensures OfIp(Auth(st, ws, sid, from, now), ip) == if from == ip then OfIp(st, ip) + {sid} else OfIp(st, ip) - {sid}
  {
    var r := Auth(st, ws, sid, from, now);
    assert forall x :: x != sid ==> (x in OfIp(r, ip) <==> x in OfIp(st, ip));
    assert sid in OfIp(r, ip) <==> from == ip;
  }

  lemma AuthCounts(st: State, ws: Ws, sid: Sid, from: string, now: int, ip: string)
    requires sid in st.nodes && sid in st.sess
    ensures CountByIp(Auth(st, ws, sid, from, now), ip)
      == CountByIp(st, ip) + (if from == ip then 1 else 0) - (if st.sess[sid].ip == ip then 1 else 0)
  {
    MovedOf(st, ws, sid, from, now, ip);
    assert sid in OfIp(st, ip) <==> st.sess[sid].ip == ip;
    assert sid in OfIp(st, ip) ==> OfIp(st, ip) + {sid} == OfIp(st, ip);
    assert sid !in OfIp(st, ip) ==> OfIp(st, ip) - {sid} == OfIp(st, ip);
  }

  lemma CommitCounts(cfg: Config, st: State, ask: Ask, hash: string, scrypt: bool, now: int, ip: string)
    requires Sound(st) && CountByIp(st, ip) <= cfg.maxNodesPerIp
    ensures CountByIp(Commit(cfg, st, ask, hash, scrypt, now), ip) <= cfg.maxNodesPerIp
  {
    if Commits(cfg, st, ask, hash, now) {
      UnseenSound(st, Consume(st, ask));
      InsertCounts(Consume(st, ask), NewSession(cfg, st, ask.nodeId, hash, scrypt, ask.at, ask.ip), ip);
      assert OfIp(Consume(st, ask), ip) == OfIp(st, ip);
    }
  }

  lemma VerifiedCounts(cfg: Config, s: Sys, id: nat, task: Task, ok: bool, now: int, ip: string)
    requires Sound(s.st) && CountByIp(s.st, ip) <= cfg.maxNodesPerIp
    requires task.Verifying? && task.donor in s.st.sess && task.verifier in s.st.sess
    ensures CountByIp(OnVerified(cfg, s, id, task, ok, now).st, ip) <= cfg.maxNodesPerIp
  {
    var up := Upgrade(s.st, task.verifier);
    EditSound(s.st, task.verifier, s.st.sess[task.verifier].(scrypt := true));
    assert OfIp(up, ip) == OfIp(s.st, ip);
    CommitCounts(cfg, up, task.ask, up.sess[task.donor].hash, true, now, ip);
  }

  lemma ReRegisterCounts(cfg: Config, st: State, proof: Proof, from: string, admitted: bool, now: int, ip: string)
    requires Sound(st) && CountByIp(st, ip) <= cfg.maxNodesPerIp
    ensures CountByIp(OnReRegister(cfg, st, proof, from, admitted, now), ip) <= cfg.maxNodesPerIp
  {
    var found := Resolve(st, proof, now);
    if found.Resolved? {
      var s := st.sess[found.sid];
      var freed := Terminate(st, found.sid, true, false, now);
      TerminateSound(st, found.sid, now);
      EvictionCounts(st, found.sid, now, ip);
      InsertCounts(freed, NewSession(cfg, freed, s.nodeId, s.hash, s.scrypt, now, from), ip);
    } else {
      assert OfIp(AfterResolve(st, proof, now), ip) == OfIp(st, ip);
    }
  }

  // ----- every event -----

  lemma RequestCounts(cfg: Config, s: Sys, e: Event, now: int, ip: string)
    requires Sound(s.st) && Enabled(s, e, now) && OfRequest(e) && CountByIp(s.st, ip) <= cfg.maxNodesPerIp
    ensures CountByIp(Apply(cfg, s, e, now).st, ip) <= cfg.maxNodesPerIp
  {
    match e
    case Verified(id, ok) => VerifiedCounts(cfg, s, id, s.tasks[id], ok, now, ip);
    case Hashed(id) => CommitCounts(cfg, s.st, s.tasks[id].ask, s.tasks[id].hash, true, now, ip);
    case ReRegister(proof, from, admitted) => ReRegisterCounts(cfg, s.st, proof, from, admitted, now, ip);
    case SessionRenew(sid) => StaysCounts(s.st, Renew(cfg, s.st, sid, now), ip);
    case Register(_, _, _, _, _, _) =>
    case HashRefused(_) =>
  }

  lemma OtherStays(cfg: Config, s: Sys, e: Event, now: int)
    requires Sound(s.st) && Enabled(s, e, now) && !OfRequest(e) && !e.AuthFrame?
    ensures Stays(s.st, Apply(cfg, s, e, now).st)
  {
    match e
    case Closed(ws) => CloseStays(s.st, ws, now);
    case JoinFrame(_, _) => FrameStays(s.st, e, now);
    case LeaveFrame(_) => FrameStays(s.st, e, now);
    case BlockFrame(_, _) => FrameStays(s.st, e, now);
    case Release(sid) => TerminateStays(s.st, sid, true, false, now);
    case ReleaseByIp(sids) => TerminateAllStays(s.st, sids, now);
    case Tick(order) => TerminateAllStays(s.st, Purged(cfg, s.st, order, now), now);
    case QrRedeem(token, hash) => QrRedeemShape(cfg, s.st, token, hash, now);
    case _ =>
  }

  /** A step takes an address past its cap if and only if it is an AUTH frame that moves a session there from
  another address while the cap is reached. */
  lemma CapExceededIff(cfg: Config, s: Sys, e: Event, now: int, ip: string)
    requires Sound(s.st) && CountByIp(s.st, ip) <= cfg.maxNodesPerIp
    ensures CountByIp(Step(cfg, s, e, now).st, ip) > cfg.maxNodesPerIp
            <==> && Enabled(s, e, now) && e.AuthFrame? && e.ip == ip && s.st.sess[e.sid].ip != ip
                 && CountByIp(s.st, ip) == cfg.maxNodesPerIp
  {
    if Enabled(s, e, now) {
      if e.AuthFrame? {
        AuthCounts(s.st, e.ws, e.sid, e.ip, now, ip);
      } else if OfRequest(e) {
        RequestCounts(cfg, s, e, now, ip);
      } else {
        OtherStays(cfg, s, e, now);
        StaysCounts(s.st, Apply(cfg, s, e, now).st, ip);
      }
    }
  }

  // ----- such a run -----

  const ONE_EACH := Config(Unlimited, 1, 1000, 1000, 1000, 3)
  const A := Session(1, "h", true, 1, Unwired, Outside, {}, 0, 0, 1000, "a")
  const B := Session(2, "k", true, 2, Unwired, Outside, {}, 0, 0, 1000, "b")
  const ONE := EMPTY.(sess := map[1 := A], nodes := {1}, proofs := map[1 := 1], next := 2,
    log := EMPTY_LOG.(inbox := map[1 := []]))
  const TWO := EMPTY.(sess := map[1 := A, 2 := B], nodes := {1, 2}, proofs := map[1 := 1, 2 := 2], next := 3,
                      log := EMPTY_LOG.(inbox := map[1 := [], 2 := []]))

  const T1 := After(After(Started, Register(1, "h", "a", NoGrant, [], true), 0), Hashed(0), 0)
  const T2 := After(After(T1, Register(2, "k", "b", NoGrant, [], true), 0), Hashed(1), 0)
  const T3 := After(T2, AuthFrame(0, 2, "a"), 0)

  function Waiting(nodeId: nat, hash: string, ip: string): Task {
    Hashing(Ask(nodeId, hash, ip, 0, None, NoGrant), hash)
  }

  // A registration without a grant, of a node that has no session.
  lemma Registers(s: Sys, nodeId: nat, hash: string, ip: string)
    requires nodeId > 0 && NodeSessions(s.st, nodeId) == {} && RoomFor(ONE_EACH, s.st, ip)
    ensures Step(ONE_EACH, s, Register(nodeId, hash, ip, NoGrant, [], true), 0)
      == s.(tasks := s.tasks[s.nextTask := Waiting(nodeId, hash, ip)], nextTask := s.nextTask + 1)
  {
  }

  // Its commit, if nothing has come in between.
  lemma Arrives(s: Sys, id: nat, nodeId: nat, hash: string, ip: string)
    requires s.tasks == map[id := Waiting(nodeId, hash, ip)]
    requires !Conflicts(s.st, nodeId, hash) && RoomFor(ONE_EACH, s.st, ip)
    ensures Step(ONE_EACH, s, Hashed(id), 0)
      == Sys(Insert(s.st, NewSession(ONE_EACH, s.st, nodeId, hash, true, 0, ip)), map[], s.nextTask)
  {
    assert s.tasks - {id} == map[];
  }

  lemma FirstArrives()
    ensures Run(ONE_EACH, T1) == Sys(ONE, map[], 1)
  {
    assert NodeSessions(EMPTY, 1) == {} && OfIp(EMPTY, "a") == {};
    Registers(Sys(EMPTY, map[], 0), 1, "h", "a");
    Arrives(Sys(EMPTY, map[0 := Waiting(1, "h", "a")], 1), 0, 1, "h", "a");
    assert Insert(EMPTY, A) == ONE;
  }

  lemma SecondArrives()
    ensures Run(ONE_EACH, T2) == Sys(TWO, map[], 2)
  {
    FirstArrives();
    assert NodeSessions(ONE, 2) == {} && OfIp(ONE, "b") == {};
    Registers(Sys(ONE, map[], 1), 2, "k", "b");
    Arrives(Sys(ONE, map[1 := Waiting(2, "k", "b")], 2), 1, 2, "k", "b");
    assert Insert(ONE, B) == TWO;
  }

  /** Two nodes register from two addresses, one session each, and the second authenticates its socket from
  the first one's: that address then has two sessions, one more than its cap. */
  lemma MovingInExceedsTheCap()
    ensures CountByIp(Run(ONE_EACH, T2).st, "a") == ONE_EACH.maxNodesPerIp
    ensures CountByIp(Run(ONE_EACH, T3).st, "a") > ONE_EACH.maxNodesPerIp
  {
    SecondArrives();
    EveryRunIsSound(ONE_EACH, T2);
    assert OfIp(TWO, "a") == {1};
    CapExceededIff(ONE_EACH, Run(ONE_EACH, T2), AuthFrame(0, 2, "a"), 0, "a");
  }
}
