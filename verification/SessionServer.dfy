/** The handlers as they run: module state edited step by step, as in session-lifecycle.ts, store.ts,
ws.ts and http.ts. */
module SessionServer {

  import opened SessionState
  import opened SessionMachine

  lemma DeliverNext(st: State, done: set<Sid>, sid: Sid, f: Frame)
    requires sid !in done
    ensures Send(Send(st, done, f), {sid}, f) == Send(st, done + {sid}, f)
  {
    var r := Send(Send(st, done, f), {sid}, f);
    assert r.log.inbox == Send(st, done + {sid}, f).log.inbox;
  }

  lemma DeliverNobody(st: State, f: Frame)
    ensures Send(st, {}, f) == st
  {
    assert Deliver(st, {}, f) == st.log.inbox;
  }

  class Server {
    var sessions: map<Sid, Session>
    var nodes: set<Sid>
    var channels: map<Channel, set<Sid>>
    var authedSockets: map<Ws, Sid>
    var sessionOf: map<Ws, Sid>
    var openSockets: set<Ws>
    var proofIndex: map<Proof, Sid>
    var tombstones: map<Proof, Tomb>
    var invites: map<nat, Invite>
    var qrTokens: set<nat>
    var nextId: nat
    ghost var log: Log
    const cfg: Config

    ghost function Abstract(): State
      reads this
    {
      State(sessions, nodes, channels, authedSockets, sessionOf, openSockets, proofIndex, tombstones, invites, qrTokens,
        nextId, log)
    }

    constructor (cfg: Config)
      ensures Abstract() == EMPTY && this.cfg == cfg
    {
      this.cfg := cfg;
      sessions, nodes, channels, authedSockets, sessionOf, openSockets := map[], {}, map[], map[], map[], {};
      proofIndex, tombstones, invites, qrTokens, nextId, log := map[], map[], map[], {}, 1, EMPTY_LOG;
    }

    /** Sends one frame to a session, if it is in the map with an open socket. */
    method PeerSend(sid: Sid, f: Frame)
      modifies this`log
      ensures Abstract() == Send(old(Abstract()), {sid}, f)
    {
      if sid !in nodes || sid !in sessions || sessions[sid].socket.Unwired? || sessions[sid].socket.ws !in openSockets {
        assert Deliver(Abstract(), {sid}, f) == log.inbox;
        return;
      }
      log := log.(inbox := Deliver(Abstract(), {sid}, f));
    }

    /** Answers on the socket a frame came on. */
    method ReplySend(ws: Ws, sid: Sid, f: Frame)
      modifies this`log
      ensures Abstract() == Reply(old(Abstract()), ws, sid, f)
    {
      if ws !in openSockets {
        return;
      }
      log := Reply(Abstract(), ws, sid, f).log;
    }

    method Broadcast(whom: set<Sid>, f: Frame)
      modifies this`log
      ensures Abstract() == Send(old(Abstract()), whom, f)
    {
      var rest := whom;
      DeliverNobody(Abstract(), f);
      while rest != {}
        invariant rest <= whom
        invariant Abstract() == Send(old(Abstract()), whom - rest, f)
        decreases |rest|
      {
        var sid: Sid :| sid in rest;
        DeliverNext(old(Abstract()), whom - rest, sid, f);
        assert whom - (rest - {sid}) == whom - rest + {sid};
        PeerSend(sid, f);
        rest := rest - {sid};
      }
      assert whom - rest == whom;
    }

    method LeaveChannel(sid: Sid)
      requires sid in sessions
      modifies this
      ensures Abstract() == Leave(old(Abstract()), sid)
    {
      if sessions[sid].place.Outside? {
        return;
      }
      var c := sessions[sid].place.channel;
      var others: set<Sid> := {};
      if c in channels {
        others := channels[c] - {sid};
      }
      Broadcast(others, PeerLeft(sid));
      if c in channels {
        channels := channels[c := others];
        if others == {} {
          channels := channels - {c};
        }
      }
      assert channels == Vacate(old(channels), c, sid);
      sessions := sessions[sid := sessions[sid].(place := Outside)];
    }

    method UnmarkSocket(ws: Ws)
      modifies this`authedSockets
      ensures authedSockets == old(authedSockets) - {ws}
    {
      authedSockets := authedSockets - {ws};
    }

    method IndexProof(proof: Proof, sid: Sid)
      modifies this`proofIndex, this`tombstones
      ensures proofIndex == old(proofIndex)[proof := sid] && tombstones == old(tombstones) - {proof}
    {
      proofIndex := proofIndex[proof := sid];
      tombstones := tombstones - {proof};
    }

    method UnindexProof(proof: Proof, nodeId: nat, now: int)
      modifies this`proofIndex, this`tombstones, this`log
      ensures Abstract() == Unindex(old(Abstract()), proof, nodeId, now)
    {
      proofIndex := proofIndex - {proof};
      if nodeId > 0 {
        tombstones := tombstones[proof := Tomb(nodeId, now + PROOF_TOMBSTONE_TTL_MS)];
      }
      log := log.(retired := log.retired[proof := Tomb(nodeId, now + PROOF_TOMBSTONE_TTL_MS)]);
    }

    method DropSocket(sid: Sid, close: bool)
      requires sid in sessions
      modifies this
      ensures Abstract() == Unwire(old(Abstract()), sid, close)
    {
      if sessions[sid].socket.Wired? {
        var ws := sessions[sid].socket.ws;
        UnmarkSocket(ws);
        sessions := sessions[sid := sessions[sid].(socket := Unwired)];
        if close {
          openSockets := openSockets - {ws};
        }
      }
    }

    method EvictSession(sid: Sid, now: int)
      requires sid in sessions
      modifies this
      ensures Abstract() == Evict(old(Abstract()), sid, now)
    {
      UnindexProof(sessions[sid].proof, sessions[sid].nodeId, now);
      nodes := nodes - {sid};
    }

    /** The fixed order: tell the channel, leave it, drop the socket, leave the map. */
    method TerminateSession(sid: Sid, close: bool, preserve: bool, now: int)
      requires sid in sessions
      modifies this
      ensures Abstract() == Terminate(old(Abstract()), sid, close, preserve, now)
    {
      if sid !in nodes && sessions[sid].socket.Unwired? && sessions[sid].place.Outside? {
        return;
      }
      LeaveChannel(sid);
      DropSocket(sid, close);
      if !preserve {
        EvictSession(sid, now);
      }
      sessions := sessions[sid := sessions[sid].(lastSeen := now)];
    }

    /** The server, or the network, begins to close a socket. */
    method StopSocket(ws: Ws)
      modifies this
      ensures Abstract() == StopListening(old(Abstract()), ws)
    {
      if ws in sessionOf && sessionOf[ws] in sessions && sessions[sessionOf[ws]].socket == Wired(ws) {
        log := log.(gap := log.gap + {sessionOf[ws]});
      }
      openSockets := openSockets - {ws};
    }

    /** The 'close' handler: a superseded socket is only forgotten. */
    method OnClose(ws: Ws, now: int)
      requires ws in sessionOf ==> sessionOf[ws] in sessions
      modifies this
      ensures Abstract() == CloseEvent(old(Abstract()), ws, now)
    {
      StopSocket(ws);
      if ws !in sessionOf || sessions[sessionOf[ws]].socket != Wired(ws) {
        UnmarkSocket(ws);
      } else {
        TerminateSession(sessionOf[ws], false, true, now);
      }
      sessionOf := sessionOf - {ws};
    }

    method OnAuth(ws: Ws, sid: Sid, ip: string, now: int)
      requires sid in sessions
      modifies this
      ensures Abstract() == Auth(old(Abstract()), ws, sid, ip, now)
    {
      var s := sessions[sid];
      if ws !in openSockets {
        log := log.(gap := log.gap + {sid});
      }
      if s.socket.Wired? && s.socket.ws != ws {
        UnmarkSocket(s.socket.ws);
        openSockets := openSockets - {s.socket.ws};
      }
      sessions := sessions[sid := s.(socket := Wired(ws), lastSeen := now, ip := ip)];
      sessionOf := sessionOf[ws := sid];
      authedSockets := authedSockets[ws := sid];
    }

    /** JOIN_CLUSTER: each present member and the newcomer are announced to each other. */
    method OnJoin(ws: Ws, sid: Sid, peers: seq<Sid>)
      requires sid in sessions
      modifies this
      ensures Abstract() == Join(old(Abstract()), ws, sid, peers)
    {
      var c := Home(sessions[sid]);
      if sessions[sid].place == Inside(c) {
        return;
      }
      LeaveChannel(sid);
      ghost var left := Abstract();
      log := Enter(Abstract(), ws, sid, Members(Abstract(), c) - {sid}).log;
      ghost var entered := Abstract();
      for i := 0 to |peers|
        invariant Abstract() == MeetAll(entered, ws, sid, peers[..i])
      {
        assert peers[..i + 1][..i] == peers[..i] && peers[..i + 1][i] == peers[i];
        var peer := peers[i];
        if peer in nodes && peer in sessions && sid !in sessions[peer].blocked && peer !in sessions[sid].blocked {
          PeerSend(peer, PeerJoined(sid, false));
          ReplySend(ws, sid, PeerJoined(peer, true));
        }
      }
      assert peers[..|peers|] == peers;
      channels := channels[c := (if c in channels then channels[c] else {}) + {sid}];
      sessions := sessions[sid := sessions[sid].(place := Inside(c))];
    }

    method OnBlock(sid: Sid, target: Sid)
      requires sid in sessions
      modifies this
      ensures Abstract() == Block(old(Abstract()), sid, target)
    {
      var s := sessions[sid];
      if |s.blocked| >= MAX_BLOCKED_IDS && target !in s.blocked {
        return;
      }
      sessions := sessions[sid := s.(blocked := s.blocked + {target})];
      PeerSend(target, PeerLeft(sid));
    }

    /** A frame on an authenticated socket: an expired session is closed, any other is served, whether or not
    it is still in the map. */
    method OnMessage(e: Event, now: int)
      requires (e.JoinFrame? || e.LeaveFrame? || e.BlockFrame?) && e.ws in sessionOf && sessionOf[e.ws] in sessions
      modifies this
      ensures Abstract() == OnFrame(old(Abstract()), e, now)
    {
      var sid := sessionOf[e.ws];
      if Expired(sessions[sid], now) {
        StopSocket(e.ws);
        return;
      }
      sessions := sessions[sid := sessions[sid].(lastSeen := now)];
      match e
      case JoinFrame(ws, peers) => OnJoin(ws, sid, peers);
      case LeaveFrame(_) => LeaveChannel(sid);
      case BlockFrame(_, target) => OnBlock(sid, target);
    }

    method CountNodesByIp(ip: string) returns (n: nat)
      ensures n == CountByIp(Abstract(), ip)
    {
      n := 0;
      var rest := nodes;
      ghost var seen: set<Sid> := {};
      while rest != {}
        invariant rest <= nodes && n == |seen|
        invariant seen == set sid | sid in nodes && sid !in rest && sid in sessions && sessions[sid].ip == ip
        decreases |rest|
      {
        var sid: Sid :| sid in rest;
        rest := rest - {sid};
        if sid in sessions && sessions[sid].ip == ip {
          n := n + 1;
          seen := seen + {sid};
        }
      }
      assert seen == OfIp(Abstract(), ip);
    }

    method HasConflict(nodeId: nat, hash: string) returns (found: bool)
      ensures found <==> Conflicts(Abstract(), nodeId, hash)
    {
      var rest := nodes;
      while rest != {}
        invariant rest <= nodes
        invariant forall sid ::
                    sid in nodes - rest && sid in sessions && sessions[sid].nodeId == nodeId
                    ==> sessions[sid].hash == hash
        decreases |rest|
      {
        var sid: Sid :| sid in rest;
        if sid in sessions && sessions[sid].nodeId == nodeId && sessions[sid].hash != hash {
          return true;
        }
        rest := rest - {sid};
      }
      return false;
    }

    method Publish(s: Session)
      modifies this
      ensures Abstract() == Insert(old(Abstract()), s)
    {
      sessions := sessions[nextId := s];
      nodes := nodes + {nextId};
      IndexProof(s.proof, nextId);
      log := log.(inbox := log.inbox[nextId := []]);
      nextId := nextId + 1;
    }

    method PublishNew(nodeId: nat, hash: string, scrypt: bool, at: int, ip: string)
      modifies this
      ensures Abstract() == Insert(old(Abstract()), NewSession(cfg, old(Abstract()), nodeId, hash, scrypt, at, ip))
    {
      Publish(Session(nodeId, hash, scrypt, nextId, Unwired, Outside, {}, at, at, at + cfg.sessionTtlMs, ip));
    }

    /** The end of /register, after its last await: every check again, then consume and publish. */
    method CommitRegistration(ask: Ask, hash: string, scrypt: bool, now: int) returns (ok: bool)
      modifies this
      ensures ok <==> Commits(cfg, old(Abstract()), ask, hash, now)
      ensures Abstract() == Commit(cfg, old(Abstract()), ask, hash, scrypt, now)
    {
      var conflict := HasConflict(ask.nodeId, hash);
      if conflict {
        return false;
      }
      if cfg.maxNodes.AtMost? && |nodes| >= cfg.maxNodes.n {
        return false;
      }
      var count := CountNodesByIp(ask.ip);
      if count >= cfg.maxNodesPerIp {
        return false;
      }
      if ask.invite.Some? {
        if ask.invite.value !in invites || invites[ask.invite.value].used || invites[ask.invite.value].expiresAt < now
           || invites[ask.invite.value].grant != ask.grant {
          return false;
        }
        invites := invites[ask.invite.value := invites[ask.invite.value].(used := true)];
        log := log.(commits := log.commits + (if ask.grant.Granted? then [ask.grant.id] else []));
      }
      PublishNew(ask.nodeId, hash, scrypt, ask.at, ask.ip);
      return true;
    }

    method ResolveProof(proof: Proof, now: int) returns (found: Resolution)
      modifies this`proofIndex, this`tombstones
      ensures found == Resolve(old(Abstract()), proof, now)
      ensures Abstract() == if found.Resolved? then old(Abstract()) else AfterResolve(old(Abstract()), proof, now)
    {
      if proof in proofIndex && proofIndex[proof] in nodes && proofIndex[proof] in sessions {
        var s := sessions[proofIndex[proof]];
        if s.proof != proof {
          proofIndex := proofIndex - {proof};
          return Refused(s.nodeId);
        }
        if Expired(s, now) {
          return Refused(s.nodeId);
        }
        return Resolved(proofIndex[proof]);
      }
      proofIndex := proofIndex - {proof};
      if proof in tombstones {
        if now > tombstones[proof].until {
          tombstones := tombstones - {proof};
          return Unknown;
        }
        return Refused(tombstones[proof].nodeId);
      }
      return Unknown;
    }

    /** /re-register once the request is admitted. */
    method ReRegisterWith(proof: Proof, ip: string, now: int)
      modifies this
      ensures Abstract() == OnReRegister(cfg, old(Abstract()), proof, ip, true, now)
    {
      var found := ResolveProof(proof, now);
      if !found.Resolved? {
        return;
      }
      var s := sessions[found.sid];
      var count := CountNodesByIp(ip);
      if count >= cfg.maxNodesPerIp && s.ip != ip {
        return;
      }
      TerminateSession(found.sid, true, false, now);
      PublishNew(s.nodeId, s.hash, s.scrypt, now, ip);
    }

    method RenewSession(sid: Sid, now: int)
      requires sid in sessions
      modifies this
      ensures Abstract() == Renew(cfg, old(Abstract()), sid, now)
    {
      UnindexProof(sessions[sid].proof, sessions[sid].nodeId, now);
      sessions := sessions[sid := sessions[sid].(proof := nextId, expiresAt := now + cfg.sessionTtlMs,
        lastSeen := now)];
      IndexProof(nextId, sid);
      nextId := nextId + 1;
    }

    method TerminateEach(sids: seq<Sid>, now: int)
      modifies this
      ensures Abstract() == TerminateAll(old(Abstract()), sids, now)
    {
      for i := 0 to |sids|
        invariant Abstract() == TerminateAll(old(Abstract()), sids[..i], now)
      {
        assert sids[..i + 1][..i] == sids[..i] && sids[..i + 1][i] == sids[i];
        if sids[i] in sessions {
          TerminateSession(sids[i], true, false, now);
        }
      }
      assert sids[..|sids|] == sids;
    }

    /** The sessions to purge are collected before any is terminated. */
    method CollectPurgeable(order: seq<Sid>, now: int) returns (purge: seq<Sid>)
      ensures purge == Purged(cfg, Abstract(), order, now)
    {
      purge := [];
      for i := 0 to |order|
        invariant purge == Purged(cfg, Abstract(), order[..i], now)
      {
        assert order[..i + 1][..i] == order[..i] && order[..i + 1][i] == order[i];
        if order[i] in nodes && order[i] in sessions && Purgeable(cfg, sessions[order[i]], now) {
          purge := purge + [order[i]];
        }
      }
      assert order[..|order|] == order;
    }

    method CleanupTombstones(now: int)
      modifies this`tombstones
      ensures Abstract() == CollectTombs(old(Abstract()), now)
    {
      var rest := tombstones.Keys;
      while rest != {}
        invariant rest <= old(tombstones).Keys
        invariant tombstones == map p | p in old(tombstones) && (p in rest || now <= old(tombstones)[p].until) ::
                    old(tombstones)[p]
        decreases |rest|
      {
        var proof: Proof :| proof in rest;
        rest := rest - {proof};
        if now > tombstones[proof].until {
          tombstones := tombstones - {proof};
        }
      }
      assert tombstones == CollectTombs(old(Abstract()), now).tombs;
    }

    method RunCleanupTick(order: seq<Sid>, now: int)
      modifies this
      ensures Abstract() == OnTick(cfg, old(Abstract()), order, now)
    {
      var purge := CollectPurgeable(order, now);
      TerminateEach(purge, now);
      ghost var purged := Abstract();
      var tokens := qrTokens;
      var rest := tokens;
      while rest != {}
        invariant rest <= tokens
        invariant qrTokens == set t | t in tokens
                                    && (t in rest || !(t in invites && (now > invites[t].expiresAt || invites[t].used)))
        invariant Abstract() == purged.(qrTokens := qrTokens)
        decreases |rest|
      {
        var token: nat :| token in rest;
        rest := rest - {token};
        if token in invites && (now > invites[token].expiresAt || invites[token].used) {
          qrTokens := qrTokens - {token};
        }
      }
      CleanupTombstones(now);
      assert qrTokens == OnTick(cfg, old(Abstract()), order, now).qrTokens;
    }
  }
}
