/** What every event keeps about channels, sockets and the session map. */
module SessionChannels {

  import opened SessionState
  import opened SessionMachine

  // ----- channels -----

  /** A session is in a channel's set exactly when it is live and says so; members have a socket and the
  channel's identity; no channel is empty. */
  ghost predicate Seated(sess: map<Sid, Session>, nodes: set<Sid>, channels: map<Channel, set<Sid>>) {
    && (forall sid :: sid in nodes ==> sid in sess)
    && (forall c, sid :: c in channels && sid in channels[c] ==>
          sid in nodes && sess[sid].place == Inside(c) && Home(sess[sid]) == c && sess[sid].socket.Wired?)
    && (forall sid :: sid in sess && sess[sid].place.Inside? ==>
          sid in nodes && sess[sid].place.channel in channels && sid in channels[sess[sid].place.channel])
    && (forall c :: c in channels ==> channels[c] != {})
  }

  ghost predicate SeatedIn(st: State) {
    Seated(st.sess, st.nodes, st.channels)
  }

  /** Changes of a record that channels do not depend on. */
  predicate SameSeat(a: Session, b: Session) {
    a.nodeId == b.nodeId && a.hash == b.hash && a.place == b.place && (a.socket.Wired? ==> b.socket.Wired?)
  }

  lemma SameSeatKeeps(sess: map<Sid, Session>, nodes: set<Sid>, channels: map<Channel, set<Sid>>, sid: Sid, s: Session)
    requires Seated(sess, nodes, channels) && sid in sess && SameSeat(sess[sid], s)
    ensures Seated(sess[sid := s], nodes, channels)
  {
  }

  lemma LeaveSeated(st: State, sid: Sid)
    requires SeatedIn(st) && sid in st.sess
    ensures SeatedIn(Leave(st, sid)) && Leave(st, sid).nodes == st.nodes && Leave(st, sid).sess[sid].place == Outside
    ensures Leave(st, sid).sess == st.sess[sid := st.sess[sid].(place := Outside)]
  {
    match st.sess[sid].place
    case Outside => assert st.sess[sid := st.sess[sid].(place := Outside)] == st.sess;
    case Inside(c) => VacateSeated(st.sess, st.nodes, st.channels, c, sid);
  }

  lemma VacateSeated(sess: map<Sid, Session>, nodes: set<Sid>, channels: map<Channel, set<Sid>>, c: Channel, sid: Sid)
    requires Seated(sess, nodes, channels) && sid in sess && sess[sid].place == Inside(c)
    ensures Seated(sess[sid := sess[sid].(place := Outside)], nodes, Vacate(channels, c, sid))
  {
    var after := Vacate(channels, c, sid);
    assert forall d :: d in after ==> after[d] == channels[d] - {sid};
    forall x | x in sess && x != sid && sess[x].place == Inside(c) ensures c in after && x in after[c] {
      assert x in channels[c] - {sid};
    }
  }

  // Someone outside every channel may lose its socket or its place in the map.
  lemma OutsiderFree(sess: map<Sid, Session>, nodes: set<Sid>, channels: map<Channel, set<Sid>>, sid: Sid, s: Session)
    requires Seated(sess, nodes, channels) && sid in sess && sess[sid].place.Outside? && s.place.Outside?
    ensures Seated(sess[sid := s], nodes, channels) && Seated(sess[sid := s], nodes - {sid}, channels)
  {
  }

  lemma TerminateSeated(st: State, sid: Sid, close: bool, preserve: bool, now: int)
    requires SeatedIn(st) && sid in st.sess
    ensures SeatedIn(Terminate(st, sid, close, preserve, now))
    ensures Terminate(st, sid, close, preserve, now).sess[sid].place.Outside?
  {
    if !Gone(st, sid) {
      LeaveSeated(st, sid);
      var left := Leave(st, sid);
      var r := Terminate(st, sid, close, preserve, now);
      OutsiderFree(left.sess, left.nodes, left.channels, sid, r.sess[sid]);
      UnwireChanges(left, sid, close);
      assert r.channels == left.channels && r.sess == left.sess[sid := r.sess[sid]];
    }
  }

  lemma UnwireChanges(st: State, sid: Sid, close: bool)
    requires sid in st.sess
    ensures Unwire(st, sid, close).sess == st.sess[sid := st.sess[sid].(socket := Unwired)]
    ensures Unwire(st, sid, close).channels == st.channels && Unwire(st, sid, close).nodes == st.nodes
  {
    if st.sess[sid].socket.Unwired? {
      assert st.sess[sid := st.sess[sid].(socket := Unwired)] == st.sess;
    }
  }

  lemma {:induction false} TerminateAllSeated(st: State, sids: seq<Sid>, now: int)
    requires SeatedIn(st)
    ensures SeatedIn(TerminateAll(st, sids, now))
  {
    if sids != [] {
      TerminateAllSeated(st, sids[..|sids| - 1], now);
      var before := TerminateAll(st, sids[..|sids| - 1], now);
      if sids[|sids| - 1] in before.sess {
        TerminateSeated(before, sids[|sids| - 1], true, false, now);
      }
    }
  }

  /** Announcing changes nothing but the inboxes. */
  lemma {:induction false} MeetAllLeaves(st: State, ws: Ws, sid: Sid, peers: seq<Sid>)
    ensures var r := MeetAll(st, ws, sid, peers);
            r == st.(log := st.log.(inbox := r.log.inbox)) && r.log.inbox.Keys == st.log.inbox.Keys
  {
    if peers != [] {
      MeetAllLeaves(st, ws, sid, peers[..|peers| - 1]);
      MeetOneLeaves(MeetAll(st, ws, sid, peers[..|peers| - 1]), ws, sid, peers[|peers| - 1]);
    }
  }

  lemma SendLeaves(st: State, whom: set<Sid>, f: Frame)
    ensures Send(st, whom, f) == st.(log := st.log.(inbox := Deliver(st, whom, f)))
            && Deliver(st, whom, f).Keys == st.log.inbox.Keys
  {
  }

  lemma MeetOneLeaves(st: State, ws: Ws, sid: Sid, peer: Sid)
    ensures var r := MeetOne(st, ws, sid, peer);
            r == st.(log := st.log.(inbox := r.log.inbox)) && r.log.inbox.Keys == st.log.inbox.Keys
  {
    if peer in st.nodes && MutuallyUnblocked(st, sid, peer) {
      SendLeaves(st, {peer}, PeerJoined(sid, false));
    }
  }

  lemma JoinSeated(st: State, ws: Ws, sid: Sid, peers: seq<Sid>)
    requires SeatedIn(st) && sid in st.nodes && sid in st.sess && st.sess[sid].socket.Wired?
    ensures SeatedIn(Join(st, ws, sid, peers))
  {
    var c := Home(st.sess[sid]);
    if st.sess[sid].place != Inside(c) {
      LeaveSeated(st, sid);
      var left := Leave(st, sid);
      MeetAllLeaves(Enter(left, ws, sid, Members(left, c) - {sid}), ws, sid, peers);
      SeatSeated(left.sess, left.nodes, left.channels, sid, c);
    }
  }

  lemma SeatSeated(sess: map<Sid, Session>, nodes: set<Sid>, channels: map<Channel, set<Sid>>, sid: Sid, c: Channel)
    requires Seated(sess, nodes, channels) && sid in nodes && sess[sid].place.Outside?
    requires sess[sid].socket.Wired? && Home(sess[sid]) == c
    ensures Seated(sess[sid := sess[sid].(place := Inside(c))], nodes,
                   channels[c := (if c in channels then channels[c] else {}) + {sid}])
  {
  }

  // ----- sockets -----

  /** The socket index is exactly the sessions' own sockets, which their closures point back to; and a
  socket that is still open is its session's current one. */
  ghost predicate Wiring(sess: map<Sid, Session>, nodes: set<Sid>, authed: map<Ws, Sid>, bound: map<Ws, Sid>,
      open: set<Ws>) {
    && (forall ws :: ws in authed ==> authed[ws] in nodes && authed[ws] in sess && sess[authed[ws]].socket == Wired(ws))
    && (forall sid :: sid in sess && sess[sid].socket.Wired? ==>
          && sid in nodes && sess[sid].socket.ws in authed && authed[sess[sid].socket.ws] == sid
          && sess[sid].socket.ws in bound && bound[sess[sid].socket.ws] == sid)
    && (forall ws :: ws in bound ==> bound[ws] in sess && (ws in open ==> sess[bound[ws]].socket == Wired(ws)))
  }

  ghost predicate WiredIn(st: State) {
    Wiring(st.sess, st.nodes, st.authed, st.bound, st.open)
  }

  lemma SameWireKeeps(st: State, sid: Sid, s: Session)
    requires WiredIn(st) && sid in st.sess && s.socket == st.sess[sid].socket
    ensures Wiring(st.sess[sid := s], st.nodes, st.authed, st.bound, st.open)
  {
  }

  lemma LeaveWired(st: State, sid: Sid)
    requires WiredIn(st) && sid in st.sess
    ensures WiredIn(Leave(st, sid))
  {
    SameWireKeeps(st, sid, st.sess[sid].(place := Outside));
  }

  lemma UnwireWired(st: State, sid: Sid, close: bool)
    requires WiredIn(st) && sid in st.sess
    requires !close && st.sess[sid].socket.Wired? ==> st.sess[sid].socket.ws !in st.open
    ensures WiredIn(Unwire(st, sid, close)) && Unwire(st, sid, close).sess[sid].socket.Unwired?
  {
  }

  // Once it has no socket a session may leave the map.
  lemma EvictWired(sess: map<Sid, Session>, nodes: set<Sid>, authed: map<Ws, Sid>, bound: map<Ws, Sid>, open: set<Ws>,
      sid: Sid)
    requires Wiring(sess, nodes, authed, bound, open) && sid in sess && sess[sid].socket.Unwired?
    ensures Wiring(sess, nodes - {sid}, authed, bound, open)
  {
  }

  lemma TerminateWired(st: State, sid: Sid, close: bool, preserve: bool, now: int)
    requires WiredIn(st) && sid in st.sess
    requires !close && st.sess[sid].socket.Wired? ==> st.sess[sid].socket.ws !in st.open
    ensures WiredIn(Terminate(st, sid, close, preserve, now))
  {
    if !Gone(st, sid) {
      var left := Leave(st, sid);
      LeaveWired(st, sid);
      assert left.sess[sid].socket == st.sess[sid].socket && left.open == st.open;
      UnwireWired(left, sid, close);
      var cut := Unwire(left, sid, close);
      EvictWired(cut.sess, cut.nodes, cut.authed, cut.bound, cut.open, sid);
      var ended := if preserve then cut else Evict(cut, sid, now);
      SameWireKeeps(ended, sid, ended.sess[sid].(lastSeen := now));
    }
  }

  lemma {:induction false} TerminateAllWired(st: State, sids: seq<Sid>, now: int)
    requires WiredIn(st)
    ensures WiredIn(TerminateAll(st, sids, now))
  {
    if sids != [] {
      TerminateAllWired(st, sids[..|sids| - 1], now);
      var before := TerminateAll(st, sids[..|sids| - 1], now);
      if sids[|sids| - 1] in before.sess {
        TerminateWired(before, sids[|sids| - 1], true, false, now);
      }
    }
  }

  lemma BindWired(sess: map<Sid, Session>, nodes: set<Sid>, authed: map<Ws, Sid>, bound: map<Ws, Sid>, open: set<Ws>,
      sid: Sid, s: Session, ws: Ws)
    requires Wiring(sess, nodes, authed, bound, open) && sid in nodes && sid in sess && ws !in bound && ws !in authed
    requires s.socket == Wired(ws) && (sess[sid].socket.Wired? ==> sess[sid].socket.ws != ws)
    ensures var was := sess[sid].socket;
            var kept := if was.Wired? then authed - {was.ws} else authed;
            var listening := if was.Wired? then open - {was.ws} else open;
            Wiring(sess[sid := s], nodes, kept[ws := sid], bound[ws := sid], listening)
  {
  }

  lemma AuthWired(st: State, ws: Ws, sid: Sid, ip: string, now: int)
    requires WiredIn(st) && sid in st.nodes && sid in st.sess && ws !in st.bound
    ensures WiredIn(Auth(st, ws, sid, ip, now))
  {
    var s := st.sess[sid].(socket := Wired(ws), lastSeen := now, ip := ip);
    assert ws !in st.authed;
    BindWired(st.sess, st.nodes, st.authed, st.bound, st.open, sid, s, ws);
  }

  lemma StopWired(st: State, ws: Ws)
    requires WiredIn(st)
    ensures WiredIn(StopListening(st, ws))
  {
  }

  // A socket no session uses may be forgotten.
  lemma UnbindWired(st: State, ws: Ws)
    requires WiredIn(st) && forall sid :: sid in st.sess ==> st.sess[sid].socket != Wired(ws)
    ensures Wiring(st.sess, st.nodes, st.authed - {ws}, st.bound - {ws}, st.open)
    ensures st.authed - {ws} == st.authed
  {
  }

  lemma CloseWired(st: State, ws: Ws, now: int)
    requires WiredIn(st)
    ensures WiredIn(CloseEvent(st, ws, now))
  {
    var closed := StopListening(st, ws);
    StopWired(st, ws);
    if ws in st.bound && st.sess[st.bound[ws]].socket == Wired(ws) {
      TerminateWired(closed, st.bound[ws], false, true, now);
      TerminateUnwires(closed, st.bound[ws], ws, now);
      UnbindWired(Terminate(closed, st.bound[ws], false, true, now), ws);
    } else {
      UnbindWired(closed, ws);
    }
  }

  lemma TerminateUnwires(st: State, sid: Sid, ws: Ws, now: int)
    requires WiredIn(st) && sid in st.sess && st.sess[sid].socket == Wired(ws)
    ensures forall x ::
              x in Terminate(st, sid, false, true, now).sess
              ==> Terminate(st, sid, false, true, now).sess[x].socket != Wired(ws)
  {
    UnwireChanges(Leave(st, sid), sid, false);
    var r := Terminate(st, sid, false, true, now);
    forall x | x in r.sess ensures r.sess[x].socket != Wired(ws) {
      assert x != sid ==> r.sess[x].socket == st.sess[x].socket;
    }
  }

  // ----- every event -----

  /** Session ids are handed out in order and never reused. */
  ghost predicate Numbered(st: State) {
    forall sid :: sid in st.sess ==> sid < st.next
  }

  ghost predicate Sound(st: State) {
    SeatedIn(st) && WiredIn(st) && Numbered(st)
  }

  /** Changes that channels and sockets do not see. */
  predicate Unseen(a: State, b: State) {
    && a.sess == b.sess && a.nodes == b.nodes && a.channels == b.channels && a.authed == b.authed && a.bound == b.bound
    && a.open == b.open && a.next <= b.next
  }

  lemma UnseenSound(a: State, b: State)
    requires Sound(a) && Unseen(a, b)
    ensures Sound(b)
  {
  }

  /** What terminating may touch outside channels and sockets: one record and the session map. */
  lemma TerminateShape(st: State, sid: Sid, close: bool, preserve: bool, now: int)
    requires sid in st.sess
    ensures var r := Terminate(st, sid, close, preserve, now);
            && r.next == st.next && r.invites == st.invites && r.qrTokens == st.qrTokens
            && r.log.commits == st.log.commits
            && r.sess == st.sess[sid := r.sess[sid]]
            && SameButSeat(st.sess[sid], r.sess[sid])
            && r.nodes == (if preserve then st.nodes else st.nodes - {sid})
  {
    var left := Leave(st, sid);
    LeaveShape(st, sid);
    UnwireShape(left, sid, close);
    if Gone(st, sid) {
      assert st.sess == st.sess[sid := st.sess[sid]] && st.nodes - {sid} == st.nodes;
    } else {
      var cut := Unwire(left, sid, close);
      EndShape(cut, sid, preserve, now);
    }
  }

  /** A record that changed only in its socket, its place and when it was last seen. */
  predicate SameButSeat(a: Session, b: Session) {
    b == a.(socket := b.socket, place := b.place, lastSeen := b.lastSeen)
  }

  lemma UnwireShape(st: State, sid: Sid, close: bool)
    requires sid in st.sess
    ensures var r := Unwire(st, sid, close);
            && r.sess == st.sess[sid := st.sess[sid].(socket := Unwired)]
            && r == st.(sess := r.sess, authed := r.authed, open := r.open)
  {
    UnwireChanges(st, sid, close);
  }

  lemma EndShape(st: State, sid: Sid, preserve: bool, now: int)
    requires sid in st.sess
    ensures var r := Touch(if preserve then st else Evict(st, sid, now), sid, now);
            && r.next == st.next && r.invites == st.invites && r.qrTokens == st.qrTokens
            && r.log.commits == st.log.commits
            && r.sess == st.sess[sid := st.sess[sid].(lastSeen := now)]
            && r.nodes == (if preserve then st.nodes else st.nodes - {sid})
  {
  }

  lemma LeaveShape(st: State, sid: Sid)
    requires sid in st.sess
    ensures var r := Leave(st, sid);
            && r.sess == st.sess[sid := st.sess[sid].(place := Outside)]
            && r == st.(sess := r.sess, channels := r.channels, log := st.log.(inbox := r.log.inbox))
            && r.log.inbox.Keys == st.log.inbox.Keys
  {
    match st.sess[sid].place
    case Outside => assert st.sess[sid := st.sess[sid].(place := Outside)] == st.sess;
    case Inside(c) => SendLeaves(st, Members(st, c) - {sid}, PeerLeft(sid));
  }

  lemma {:induction false} TerminateAllKeys(st: State, sids: seq<Sid>, now: int)
    ensures TerminateAll(st, sids, now).sess.Keys == st.sess.Keys && TerminateAll(st, sids, now).next == st.next
    ensures TerminateAll(st, sids, now).nodes <= st.nodes
  {
    if sids != [] {
      var before := TerminateAll(st, sids[..|sids| - 1], now);
      TerminateAllKeys(st, sids[..|sids| - 1], now);
      if sids[|sids| - 1] in before.sess {
        TerminateShape(before, sids[|sids| - 1], true, false, now);
      }
    }
  }

  lemma NewSeated(sess: map<Sid, Session>, nodes: set<Sid>, channels: map<Channel, set<Sid>>, sid: Sid, s: Session)
    requires Seated(sess, nodes, channels) && sid !in sess && s.place.Outside?
    ensures Seated(sess[sid := s], nodes + {sid}, channels)
  {
  }

  lemma NewWired(st: State, sid: Sid, s: Session)
    requires WiredIn(st) && sid !in st.sess && s.socket.Unwired?
    ensures Wiring(st.sess[sid := s], st.nodes + {sid}, st.authed, st.bound, st.open)
  {
  }

  lemma InsertSound(st: State, s: Session)
    requires Sound(st) && s.socket.Unwired? && s.place.Outside?
    ensures Sound(Insert(st, s))
  {
    assert st.next !in st.sess;
    NewSeated(st.sess, st.nodes, st.channels, st.next, s);
    NewWired(st, st.next, s);
  }

  lemma CommitSound(cfg: Config, st: State, ask: Ask, hash: string, scrypt: bool, now: int)
    requires Sound(st)
    ensures Sound(Commit(cfg, st, ask, hash, scrypt, now))
  {
    if Commits(cfg, st, ask, hash, now) {
      UnseenSound(st, Consume(st, ask));
      InsertSound(Consume(st, ask), NewSession(cfg, st, ask.nodeId, hash, scrypt, ask.at, ask.ip));
    }
  }

  lemma TerminateSound(st: State, sid: Sid, now: int)
    requires Sound(st) && sid in st.sess
    ensures Sound(Terminate(st, sid, true, false, now))
  {
    TerminateSeated(st, sid, true, false, now);
    TerminateWired(st, sid, true, false, now);
    assert Terminate(st, sid, true, false, now).next == st.next;
  }

  lemma TerminateAllSound(st: State, sids: seq<Sid>, now: int)
    requires Sound(st)
    ensures Sound(TerminateAll(st, sids, now))
  {
    TerminateAllSeated(st, sids, now);
    TerminateAllWired(st, sids, now);
    TerminateAllKeys(st, sids, now);
  }

  lemma EditSound(st: State, sid: Sid, s: Session)
    requires Sound(st) && sid in st.sess && SameSeat(st.sess[sid], s) && s.socket == st.sess[sid].socket
    ensures Sound(st.(sess := st.sess[sid := s]))
  {
    SameSeatKeeps(st.sess, st.nodes, st.channels, sid, s);
    SameWireKeeps(st, sid, s);
  }

  lemma LeaveSound(st: State, sid: Sid)
    requires Sound(st) && sid in st.sess
    ensures Sound(Leave(st, sid))
  {
    LeaveSeated(st, sid);
    LeaveWired(st, sid);
  }

  lemma JoinSound(st: State, ws: Ws, sid: Sid, peers: seq<Sid>)
    requires Sound(st) && sid in st.nodes && st.sess[sid].socket.Wired?
    ensures Sound(Join(st, ws, sid, peers))
  {
    JoinSeated(st, ws, sid, peers);
    var c := Home(st.sess[sid]);
    if st.sess[sid].place != Inside(c) {
      LeaveSound(st, sid);
      var left := Leave(st, sid);
      MeetAllLeaves(Enter(left, ws, sid, Members(left, c) - {sid}), ws, sid, peers);
      SameWireKeeps(left, sid, left.sess[sid].(place := Inside(c)));
    }
  }

  lemma BlockSound(st: State, sid: Sid, target: Sid)
    requires Sound(st) && sid in st.sess
    ensures Sound(Block(st, sid, target))
  {
    var s := st.sess[sid].(blocked := st.sess[sid].blocked + {target});
    EditSound(st, sid, s);
    UnseenSound(st.(sess := st.sess[sid := s]), Send(st.(sess := st.sess[sid := s]), {target}, PeerLeft(sid)));
  }

  lemma AuthSound(st: State, ws: Ws, sid: Sid, ip: string, now: int)
    requires Sound(st) && sid in st.nodes && ws !in st.bound
    ensures Sound(Auth(st, ws, sid, ip, now))
  {
    AuthWired(st, ws, sid, ip, now);
    SameSeatKeeps(st.sess, st.nodes, st.channels, sid, st.sess[sid].(socket := Wired(ws), lastSeen := now, ip := ip));
  }

  lemma CloseSeated(st: State, ws: Ws, now: int)
    requires SeatedIn(st) && (ws in st.bound ==> st.bound[ws] in st.sess)
    ensures SeatedIn(CloseEvent(st, ws, now))
  {
    if ws in st.bound && st.sess[st.bound[ws]].socket == Wired(ws) {
      TerminateSeated(StopListening(st, ws), st.bound[ws], false, true, now);
    }
  }

  lemma CloseShape(st: State, ws: Ws, now: int)
    requires ws in st.bound ==> st.bound[ws] in st.sess
    ensures CloseEvent(st, ws, now).sess.Keys == st.sess.Keys && CloseEvent(st, ws, now).next == st.next
  {
    if ws in st.bound && st.sess[st.bound[ws]].socket == Wired(ws) {
      TerminateShape(StopListening(st, ws), st.bound[ws], false, true, now);
    }
  }

  lemma CloseSound(st: State, ws: Ws, now: int)
    requires Sound(st)
    ensures Sound(CloseEvent(st, ws, now))
  {
    CloseWired(st, ws, now);
    CloseSeated(st, ws, now);
    CloseShape(st, ws, now);
  }

  lemma FrameSound(st: State, e: Event, now: int)
    requires Sound(st) && (e.JoinFrame? || e.LeaveFrame? || e.BlockFrame?) && e.ws in st.bound
    requires e.JoinFrame? ==> JoinGuarded(st, e.ws, now)
    ensures Sound(OnFrame(st, e, now))
  {
    var sid := st.bound[e.ws];
    if Expired(st.sess[sid], now) {
      StopWired(st, e.ws);
    } else {
      TouchSound(st, sid, now);
      ServedSound(Touch(st, sid, now), e, sid);
    }
  }

  lemma ServedSound(seen: State, e: Event, sid: Sid)
    requires Sound(seen) && sid in seen.sess && (e.JoinFrame? || e.LeaveFrame? || e.BlockFrame?)
    requires e.JoinFrame? ==> sid in seen.nodes && seen.sess[sid].socket.Wired?
    ensures e.JoinFrame? ==> Sound(Join(seen, e.ws, sid, e.peers))
    ensures e.LeaveFrame? ==> Sound(Leave(seen, sid))
    ensures e.BlockFrame? ==> Sound(Block(seen, sid, e.target))
  {
    match e
    case JoinFrame(ws, peers) => JoinSound(seen, ws, sid, peers);
    case LeaveFrame(_) => LeaveSound(seen, sid);
    case BlockFrame(_, target) => BlockSound(seen, sid, target);
  }

  lemma TouchSound(st: State, sid: Sid, now: int)
    requires Sound(st) && sid in st.sess
    ensures Sound(Touch(st, sid, now))
  {
    EditSound(st, sid, st.sess[sid].(lastSeen := now));
  }

  lemma RenewSound(cfg: Config, st: State, sid: Sid, now: int)
    requires Sound(st) && sid in st.sess
    ensures Sound(Renew(cfg, st, sid, now))
  {
    var r := Renew(cfg, st, sid, now);
    EditSound(st, sid, r.sess[sid]);
    assert r.sess == st.sess[sid := r.sess[sid]];
    UnseenSound(st.(sess := r.sess), r);
  }

  lemma AfterResolveUnseen(st: State, proof: Proof, now: int)
    ensures Unseen(st, AfterResolve(st, proof, now))
  {
  }

  lemma ReRegisterSound(cfg: Config, st: State, proof: Proof, ip: string, admitted: bool, now: int)
    requires Sound(st)
    ensures Sound(OnReRegister(cfg, st, proof, ip, admitted, now))
  {
    var found := Resolve(st, proof, now);
    if found.Resolved? {
      var s := st.sess[found.sid];
      var freed := Terminate(st, found.sid, true, false, now);
      TerminateSound(st, found.sid, now);
      InsertSound(freed, NewSession(cfg, freed, s.nodeId, s.hash, s.scrypt, now, ip));
    } else {
      AfterResolveUnseen(st, proof, now);
      UnseenSound(st, AfterResolve(st, proof, now));
    }
  }

  lemma VerifiedSound(cfg: Config, s: Sys, id: nat, task: Task, ok: bool, now: int)
    requires Sound(s.st) && task.Verifying? && task.donor in s.st.sess && task.verifier in s.st.sess
    ensures Sound(OnVerified(cfg, s, id, task, ok, now).st)
  {
    var st := Upgrade(s.st, task.verifier);
    EditSound(s.st, task.verifier, s.st.sess[task.verifier].(scrypt := true));
    CommitSound(cfg, st, task.ask, st.sess[task.donor].hash, true, now);
  }

  lemma TickSound(cfg: Config, st: State, order: seq<Sid>, now: int)
    requires Sound(st)
    ensures Sound(OnTick(cfg, st, order, now))
  {
    var purged := TerminateAll(st, Purged(cfg, st, order, now), now);
    TerminateAllSound(st, Purged(cfg, st, order, now), now);
    UnseenSound(purged, OnTick(cfg, st, order, now));
  }

  lemma RequestSound(cfg: Config, s: Sys, e: Event, now: int)
    requires Sound(s.st) && Enabled(s, e, now)
    requires e.Register? || e.Verified? || e.Hashed? || e.HashRefused? || e.ReRegister? || e.SessionRenew?
    ensures Sound(Apply(cfg, s, e, now).st)
  {
    match e
    case Verified(id, ok) => VerifiedSound(cfg, s, id, s.tasks[id], ok, now);
    case Hashed(id) => CommitSound(cfg, s.st, s.tasks[id].ask, s.tasks[id].hash, true, now);
    case ReRegister(proof, ip, admitted) => ReRegisterSound(cfg, s.st, proof, ip, admitted, now);
    case SessionRenew(sid) => RenewSound(cfg, s.st, sid, now);
    case Register(_, _, _, _, _, _) =>
    case HashRefused(_) =>
  }

  lemma QrTokenUnseen(cfg: Config, st: State, sid: Sid, now: int)
    requires sid in st.sess
    ensures Unseen(st, OnQrToken(cfg, st, sid, now))
  {
  }

  lemma QrRedeemShape(cfg: Config, st: State, token: nat, hash: string, now: int)
    ensures var r := OnQrRedeem(cfg, st, token, hash, now);
            r == st.(invites := r.invites, next := r.next) && st.next <= r.next
  {
    var found := RedeemResult(st, token, hash, now);
    if !found.WrongPasscode? && !found.NewGrant? {
      assert OnQrRedeem(cfg, st, token, hash, now) == st;
    }
  }

  lemma QrRedeemUnseen(cfg: Config, st: State, token: nat, hash: string, now: int)
    ensures Unseen(st, OnQrRedeem(cfg, st, token, hash, now))
  {
    QrRedeemShape(cfg, st, token, hash, now);
  }

  lemma OtherSound(cfg: Config, s: Sys, e: Event, now: int)
    requires Sound(s.st) && Enabled(s, e, now)
    requires e.Release? || e.ReleaseByIp? || e.QrToken? || e.QrRedeem? || e.Tick?
    ensures Sound(Apply(cfg, s, e, now).st)
  {
    match e
    case Release(sid) => TerminateSound(s.st, sid, now);
    case ReleaseByIp(sids) => TerminateAllSound(s.st, sids, now);
    case QrToken(sid) =>
      QrTokenUnseen(cfg, s.st, sid, now);
      UnseenSound(s.st, OnQrToken(cfg, s.st, sid, now));
    case QrRedeem(token, hash) =>
      QrRedeemUnseen(cfg, s.st, token, hash, now);
      UnseenSound(s.st, OnQrRedeem(cfg, s.st, token, hash, now));
    case Tick(order) => TickSound(cfg, s.st, order, now);
  }

  lemma SocketSound(cfg: Config, s: Sys, e: Event, now: int)
    requires Sound(s.st) && Enabled(s, e, now)
    requires e.Connect? || e.AuthFrame? || e.JoinFrame? || e.LeaveFrame? || e.BlockFrame? || e.ServerCloses?
             || e.Closed?
    ensures Sound(Apply(cfg, s, e, now).st)
  {
    match e
    case AuthFrame(ws, sid, ip) => AuthSound(s.st, ws, sid, ip, now);
    case ServerCloses(ws) => StopWired(s.st, ws);
    case Closed(ws) => CloseSound(s.st, ws, now);
    case Connect(_) =>
    case JoinFrame(_, _) => FrameSound(s.st, e, now);
    case LeaveFrame(_) => FrameSound(s.st, e, now);
    case BlockFrame(_, _) => FrameSound(s.st, e, now);
  }

  predicate OfSocket(e: Event) {
    e.Connect? || e.AuthFrame? || e.JoinFrame? || e.LeaveFrame? || e.BlockFrame? || e.ServerCloses? || e.Closed?
  }

  predicate OfRequest(e: Event) {
    e.Register? || e.Verified? || e.Hashed? || e.HashRefused? || e.ReRegister? || e.SessionRenew?
  }

  lemma StepSound(cfg: Config, s: Sys, e: Event, now: int)
    requires Sound(s.st)
    ensures Sound(Step(cfg, s, e, now).st)
  {
    if Enabled(s, e, now) {
      if OfSocket(e) {
        SocketSound(cfg, s, e, now);
      } else if OfRequest(e) {
        RequestSound(cfg, s, e, now);
      } else {
        OtherSound(cfg, s, e, now);
      }
    }
  }

  /** Over every run the channel sets, the sessions, their sockets and the socket index agree. */
  lemma {:induction false} EveryRunIsSound(cfg: Config, t: Trace)
    ensures Sound(Run(cfg, t).st)
  {
    if t.After? {
      EveryRunIsSound(cfg, t.before);
      StepSound(cfg, Run(cfg, t.before), t.event, t.at);
    }
  }

  // ----- what an event leaves alone -----

  /** At most the record of `sid` changed, and neither its identity nor its proof; the session map, the
  proofs and the invitations are as they were. */
  predicate OneRecord(st: State, r: State, sid: Sid) {
    && sid in st.sess && sid in r.sess && r.sess == st.sess[sid := r.sess[sid]]
    && SameIdentity(st.sess[sid], r.sess[sid])
    && r.nodes == st.nodes && r.proofs == st.proofs && r.tombs == st.tombs && r.next == st.next
    && r.invites == st.invites && r.qrTokens == st.qrTokens && r.log.retired == st.log.retired
    && r.log.commits == st.log.commits
  }

  predicate SameIdentity(a: Session, b: Session) {
    a.nodeId == b.nodeId && a.hash == b.hash && a.proof == b.proof
  }

  lemma OneThenOne(a: State, b: State, c: State, sid: Sid)
    requires OneRecord(a, b, sid) && OneRecord(b, c, sid)
    ensures OneRecord(a, c, sid)
  {
    assert a.sess[sid := c.sess[sid]] == b.sess[sid := c.sess[sid]];
  }

  lemma NoRecord(st: State, sid: Sid)
    requires sid in st.sess
    ensures OneRecord(st, st, sid)
  {
    assert st.sess[sid := st.sess[sid]] == st.sess;
  }

  lemma LeaveOne(st: State, sid: Sid)
    requires sid in st.sess
    ensures OneRecord(st, Leave(st, sid), sid)
  {
    LeaveShape(st, sid);
  }

  lemma EnterOne(st: State, ws: Ws, sid: Sid, members: set<Sid>, peers: seq<Sid>)
    requires sid in st.sess
    ensures var r := MeetAll(Enter(st, ws, sid, members), ws, sid, peers);
            OneRecord(st, r, sid) && r.sess == st.sess
  {
    MeetAllLeaves(Enter(st, ws, sid, members), ws, sid, peers);
    NoRecord(st, sid);
  }

  lemma SeatOne(st: State, sid: Sid, c: Channel)
    requires sid in st.sess
    ensures OneRecord(st, Seat(st, sid, c), sid)
  {
  }

  lemma JoinOne(st: State, ws: Ws, sid: Sid, peers: seq<Sid>)
    requires sid in st.sess
    ensures OneRecord(st, Join(st, ws, sid, peers), sid)
  {
    if st.sess[sid].place == Inside(Home(st.sess[sid])) {
      NoRecord(st, sid);
    } else {
      var left := Leave(st, sid);
      LeaveOne(st, sid);
      var members := Members(left, Home(st.sess[sid])) - {sid};
      EnterOne(left, ws, sid, members, peers);
      var met := MeetAll(Enter(left, ws, sid, members), ws, sid, peers);
      OneThenOne(st, left, met, sid);
      SeatOne(met, sid, Home(st.sess[sid]));
      OneThenOne(st, met, Seat(met, sid, Home(st.sess[sid])), sid);
    }
  }

  lemma BlockOne(st: State, sid: Sid, target: Sid)
    requires sid in st.sess
    ensures OneRecord(st, Block(st, sid, target), sid)
  {
    NoRecord(st, sid);
  }

  lemma TouchOne(st: State, sid: Sid, now: int)
    requires sid in st.sess
    ensures OneRecord(st, Touch(st, sid, now), sid)
  {
  }

  lemma FrameOne(st: State, e: Event, now: int)
    requires (e.JoinFrame? || e.LeaveFrame? || e.BlockFrame?) && e.ws in st.bound && st.bound[e.ws] in st.sess
    ensures OneRecord(st, OnFrame(st, e, now), st.bound[e.ws])
  {
    var sid := st.bound[e.ws];
    if Expired(st.sess[sid], now) {
      NoRecord(st, sid);
    } else {
      TouchOne(st, sid, now);
      ServedOne(Touch(st, sid, now), e, sid);
      OneThenOne(st, Touch(st, sid, now), OnFrame(st, e, now), sid);
    }
  }

  lemma ServedOne(seen: State, e: Event, sid: Sid)
    requires (e.JoinFrame? || e.LeaveFrame? || e.BlockFrame?) && sid in seen.sess
    ensures e.JoinFrame? ==> OneRecord(seen, Join(seen, e.ws, sid, e.peers), sid)
    ensures e.LeaveFrame? ==> OneRecord(seen, Leave(seen, sid), sid)
    ensures e.BlockFrame? ==> OneRecord(seen, Block(seen, sid, e.target), sid)
  {
    match e
    case JoinFrame(ws, peers) => JoinOne(seen, ws, sid, peers);
    case LeaveFrame(_) => LeaveOne(seen, sid);
    case BlockFrame(_, target) => BlockOne(seen, sid, target);
  }

  lemma AuthOne(st: State, ws: Ws, sid: Sid, ip: string, now: int)
    requires sid in st.sess
    ensures OneRecord(st, Auth(st, ws, sid, ip, now), sid)
  {
  }

  lemma UpgradeOne(st: State, sid: Sid)
    requires sid in st.sess
    ensures OneRecord(st, Upgrade(st, sid), sid)
  {
  }

  // ----- termination happens once -----

  /** Terminating an evicted session again changes nothing at all. */
  lemma TerminateIsIdempotent(st: State, sid: Sid, close: bool, preserve: bool, again: bool, keep: bool, now: int,
      later: int)
    requires Sound(st) && sid in st.sess && (preserve ==> keep)
    ensures var once := Terminate(st, sid, close, preserve, now);
            var twice := Terminate(once, sid, again, keep, later);
            && (!preserve ==> twice == once)
            && (preserve ==> twice == if Gone(once, sid) then once else Touch(once, sid, later))
  {
    UnwireChanges(Leave(st, sid), sid, close);
    LeaveSeated(st, sid);
    if Gone(st, sid) {
    } else {
      var once := Terminate(st, sid, close, preserve, now);
      assert once.sess[sid].place.Outside? && once.sess[sid].socket.Unwired?;
    }
  }

  /** The late 'close' of a superseded socket leaves the live session, its channel, its index entry and its
  proof alone. */
  lemma LateCloseIsHarmless(st: State, ws: Ws, now: int)
    requires Sound(st) && (ws in st.bound ==> st.sess[st.bound[ws]].socket != Wired(ws))
    ensures var r := CloseEvent(st, ws, now);
            && r.sess == st.sess && r.nodes == st.nodes && r.channels == st.channels && r.authed == st.authed
            && r.proofs == st.proofs && r.tombs == st.tombs && r.log.inbox == st.log.inbox
  {
    assert ws !in st.authed;
  }

  // ----- what a JOIN on an old socket costs -----

  /** A JOIN seats its session whatever became of it: a session that was evicted, or that has no socket,
  becomes a member of its channel all the same. */
  lemma JoinSeats(st: State, ws: Ws, sid: Sid, peers: seq<Sid>)
    requires sid in st.sess && st.sess[sid].place != Inside(Home(st.sess[sid]))
    ensures var r := Join(st, ws, sid, peers);
            && Home(st.sess[sid]) in r.channels && sid in r.channels[Home(st.sess[sid])]
            && sid in r.sess && r.sess[sid] == st.sess[sid].(place := Inside(Home(st.sess[sid]))) && r.nodes == st.nodes
  {
    LeaveShape(st, sid);
    var left := Leave(st, sid);
    MeetAllLeaves(Enter(left, ws, sid, Members(left, Home(st.sess[sid])) - {sid}), ws, sid, peers);
  }

  /** The channel sets survive a JOIN frame if and only if its session is closed as expired, or is live and
  has a socket. */
  lemma JoinKeepsChannelsIff(st: State, ws: Ws, peers: seq<Sid>, now: int)
    requires Sound(st) && ws in st.bound && st.bound[ws] in st.sess
    ensures SeatedIn(OnFrame(st, JoinFrame(ws, peers), now)) <==> JoinGuarded(st, ws, now)
  {
    var sid := st.bound[ws];
    if JoinGuarded(st, ws, now) {
      FrameSound(st, JoinFrame(ws, peers), now);
    } else {
      JoinSeats(Touch(st, sid, now), ws, sid, peers);
    }
  }

  // An allowed AUTH frame, and what it changes.
  lemma StepAuth(cfg: Config, s: Sys, ws: Ws, sid: Sid, ip: string, now: int)
    requires Sound(s.st) && sid in s.st.nodes && !Expired(s.st.sess[sid], now) && ws !in s.st.bound
    ensures var r := Step(cfg, s, AuthFrame(ws, sid, ip), now);
            && Sound(r.st) && r.st.nodes == s.st.nodes && r.st.bound == s.st.bound[ws := sid]
            && sid in r.st.sess && r.st.sess[sid].socket == Wired(ws)
            && r.st.sess[sid].expiresAt == s.st.sess[sid].expiresAt
  {
    assert Step(cfg, s, AuthFrame(ws, sid, ip), now) == s.(st := Auth(s.st, ws, sid, ip, now));
    AuthSound(s.st, ws, sid, ip, now);
  }

  lemma StepClosed(cfg: Config, s: Sys, ws: Ws, sid: Sid, now: int)
    requires Sound(s.st) && ws in s.st.bound && s.st.bound[ws] == sid && s.st.sess[sid].socket == Wired(ws)
    ensures var r := Step(cfg, s, Closed(ws), now);
            && Sound(r.st) && r.st.nodes == s.st.nodes && r.st.bound == s.st.bound - {ws}
            && sid in r.st.sess && r.st.sess[sid].socket.Unwired?
            && r.st.sess[sid].expiresAt == s.st.sess[sid].expiresAt
  {
    assert Step(cfg, s, Closed(ws), now) == s.(st := CloseEvent(s.st, ws, now));
    CloseSound(s.st, ws, now);
    var closed := StopListening(s.st, ws);
    TerminateShape(closed, sid, false, true, now);
    UnwireShape(Leave(closed, sid), sid, false);
    LeaveShape(closed, sid);
  }

  lemma StepRelease(cfg: Config, s: Sys, sid: Sid, now: int)
    requires Sound(s.st) && sid in s.st.nodes && !Expired(s.st.sess[sid], now)
    ensures var r := Step(cfg, s, Release(sid), now);
            && Sound(r.st) && r.st.nodes == s.st.nodes - {sid} && r.st.bound == s.st.bound
            && sid in r.st.sess && r.st.sess[sid].expiresAt == s.st.sess[sid].expiresAt
  {
    assert Step(cfg, s, Release(sid), now) == s.(st := Terminate(s.st, sid, true, false, now));
    TerminateSound(s.st, sid, now);
    TerminateShape(s.st, sid, true, false, now);
    LeaveShape(s.st, sid);
    UnwireShape(Leave(s.st, sid), sid, true);
  }

  /** One way there: `a` authenticates, `b` supersedes it and closes again, and a JOIN still arrives on `a`.
  Every step is allowed, the session is live, and the channel gains a member without a socket. */
  lemma LateJoinWithoutSocket(cfg: Config, s: Sys, sid: Sid, a: Ws, b: Ws, ip: string, peers: seq<Sid>, now: int)
    requires Sound(s.st) && sid in s.st.nodes && !Expired(s.st.sess[sid], now)
    requires a != b && a !in s.st.bound && b !in s.st.bound
    ensures var on := Step(cfg, s, AuthFrame(a, sid, ip), now);
            var over := Step(cfg, on, AuthFrame(b, sid, ip), now);
            var st := Step(cfg, over, Closed(b), now).st;
            && Sound(st) && sid in st.nodes && sid in st.sess && !Expired(st.sess[sid], now)
            && st.sess[sid].socket.Unwired? && a in st.bound && st.bound[a] == sid
            && !SeatedIn(OnFrame(st, JoinFrame(a, peers), now))
  {
    var on := Step(cfg, s, AuthFrame(a, sid, ip), now);
    StepAuth(cfg, s, a, sid, ip, now);
    var over := Step(cfg, on, AuthFrame(b, sid, ip), now);
    StepAuth(cfg, on, b, sid, ip, now);
    StepClosed(cfg, over, b, sid, now);
    JoinKeepsChannelsIff(Step(cfg, over, Closed(b), now).st, a, peers, now);
  }

  /** The other: the session is released while a JOIN is on its way. */
  lemma LateJoinAfterRelease(cfg: Config, s: Sys, sid: Sid, a: Ws, ip: string, peers: seq<Sid>, now: int)
    requires Sound(s.st) && sid in s.st.nodes && !Expired(s.st.sess[sid], now) && a !in s.st.bound
    ensures var on := Step(cfg, s, AuthFrame(a, sid, ip), now);
            var st := Step(cfg, on, Release(sid), now).st;
            && Sound(st) && sid !in st.nodes && a in st.bound && st.bound[a] == sid && sid in st.sess
            && !SeatedIn(OnFrame(st, JoinFrame(a, peers), now))
  {
    var on := Step(cfg, s, AuthFrame(a, sid, ip), now);
    StepAuth(cfg, s, a, sid, ip, now);
    StepRelease(cfg, on, sid, now);
    JoinKeepsChannelsIff(Step(cfg, on, Release(sid), now).st, a, peers, now);
  }
}
