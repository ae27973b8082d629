/** Sessions, channels, sockets and admission: the shared maps of server/src/store.ts and the synchronous
pieces of http.ts, ws.ts and session-lifecycle.ts that edit them. */
module SessionState {

  type Sid = nat
  type Ws = nat
  type Proof = nat

  const PROOF_TOMBSTONE_TTL_MS := 3_600_000
  const MAX_BLOCKED_IDS := 2000

  datatype Limit = Unlimited | AtMost(n: nat)

  datatype Config = Config(
    maxNodes: Limit, maxNodesPerIp: nat, sessionTtlMs: nat, disconnectedTtlMs: nat, qrTokenTtlMs: nat, maxAttempts: nat)

  datatype Wire = Unwired | Wired(ws: Ws)

  /** A cluster channel is named by a node and the first sixteen characters of its identity hash. */
  datatype Channel = Cluster(nodeId: nat, prefix: string)

  datatype Place = Outside | Inside(channel: Channel)

  /** The session record. It outlives its entry in the session map: sockets and suspended requests hold on
  to it. `scrypt` says whether it carries a salted verifier. */
  datatype Session = Session(
    nodeId: nat, hash: string, scrypt: bool, proof: Proof, socket: Wire, place: Place, blocked: set<Sid>,
    lastSeen: int, joinedAt: int, expiresAt: int, ip: string)

  datatype Tomb = Tomb(nodeId: nat, until: int)

  datatype Frame = PeerJoined(peer: Sid, initiate: bool) | PeerLeft(peer: Sid)

  datatype Grant = NoGrant | Granted(id: nat)

  /** An invitation record, which a suspended registration may hold after it left the token map. */
  datatype Invite = Invite(owner: nat, hash: string, expiresAt: int, used: bool, grant: Grant, failures: nat)

  /** What happened, kept only to state properties. */
  datatype Log = Log(
    inbox: map<Sid, seq<Frame>>,      // the roster frames sent to a session since it last joined
    met: set<(Sid, Sid)>,             // co-members neither of whom had blocked the other when the later joined
    stamp: map<Sid, nat>,             // when a session last joined
    gap: set<Sid>,                    // sessions that may have missed a frame since they joined
    retired: map<Proof, Tomb>,        // every proof ever unindexed, with what it is charged to
    commits: seq<nat>,                // the grants consumed, in order
    clock: nat)

  datatype State = State(
    sess: map<Sid, Session>, nodes: set<Sid>, channels: map<Channel, set<Sid>>,
    authed: map<Ws, Sid>, bound: map<Ws, Sid>, open: set<Ws>,
    proofs: map<Proof, Sid>, tombs: map<Proof, Tomb>,
    invites: map<nat, Invite>, qrTokens: set<nat>, next: nat, log: Log)

  function Prefix16(hash: string): string {
    if |hash| <= 16 then hash else hash[..16]
  }

  function Home(s: Session): Channel {
    Cluster(s.nodeId, Prefix16(s.hash))
  }

  predicate Expired(s: Session, now: int) {
    s.expiresAt > 0 && now >= s.expiresAt
  }

  // ----- frames -----

  /** In the map, with an open socket. */
  predicate Listening(st: State, sid: Sid) {
    sid in st.nodes && sid in st.sess && st.sess[sid].socket.Wired? && st.sess[sid].socket.ws in st.open
  }

  function Deliver(st: State, whom: set<Sid>, f: Frame): map<Sid, seq<Frame>> {
    map sid | sid in st.log.inbox ::
      if sid in whom && Listening(st, sid) then st.log.inbox[sid] + [f] else st.log.inbox[sid]
  }

  function Send(st: State, whom: set<Sid>, f: Frame): State {
    st.(log := st.log.(inbox := Deliver(st, whom, f)))
  }

  // ----- leaving -----

  function Vacate(channels: map<Channel, set<Sid>>, c: Channel, sid: Sid): map<Channel, set<Sid>> {
    if c !in channels then channels
    else if channels[c] - {sid} == {} then channels - {c}
    else channels[c := channels[c] - {sid}]
  }

  function Members(st: State, c: Channel): set<Sid> {
    if c in st.channels then st.channels[c] else {}
  }

  /** leaveChannel, and the first two steps of terminateSession. */
  function Leave(st: State, sid: Sid): (r: State)
    requires sid in st.sess
    ensures r.sess.Keys == st.sess.Keys
  {
    match st.sess[sid].place
    case Outside => st
    case Inside(c) =>
      var told := Send(st, Members(st, c) - {sid}, PeerLeft(sid));
      told.(channels := Vacate(st.channels, c, sid), sess := st.sess[sid := st.sess[sid].(place := Outside)])
  }

  function Unwire(st: State, sid: Sid, close: bool): (r: State)
    requires sid in st.sess
    ensures r.sess.Keys == st.sess.Keys
  {
    match st.sess[sid].socket
    case Unwired => st
    case Wired(ws) =>
      st.(authed := st.authed - {ws}, open := if close then st.open - {ws} else st.open,
          sess := st.sess[sid := st.sess[sid].(socket := Unwired)])
  }

  function Unindex(st: State, proof: Proof, nodeId: nat, now: int): State {
    var tomb := Tomb(nodeId, now + PROOF_TOMBSTONE_TTL_MS);
    st.(proofs := st.proofs - {proof}, tombs := if nodeId > 0 then st.tombs[proof := tomb] else st.tombs,
        log := st.log.(retired := st.log.retired[proof := tomb]))
  }

  function Evict(st: State, sid: Sid, now: int): State
    requires sid in st.sess
  {
    Unindex(st, st.sess[sid].proof, st.sess[sid].nodeId, now).(nodes := st.nodes - {sid})
  }

  predicate Gone(st: State, sid: Sid)
    requires sid in st.sess
  {
    sid !in st.nodes && st.sess[sid].socket.Unwired? && st.sess[sid].place.Outside?
  }

  function Touch(st: State, sid: Sid, now: int): State
    requires sid in st.sess
  {
    st.(sess := st.sess[sid := st.sess[sid].(lastSeen := now)])
  }

  /** terminateSession without the onlyIfSocket guard. */
  function Terminate(st: State, sid: Sid, close: bool, preserve: bool, now: int): (r: State)
    requires sid in st.sess
    ensures r.sess.Keys == st.sess.Keys
  {
    if Gone(st, sid) then st
    else
      var cut := Unwire(Leave(st, sid), sid, close);
      Touch(if preserve then cut else Evict(cut, sid, now), sid, now)
  }

  // ----- sockets -----

  predicate Current(st: State, ws: Ws) {
    ws in st.bound && st.bound[ws] in st.sess && st.sess[st.bound[ws]].socket == Wired(ws)
  }

  /** A socket that is closing misses what is sent to its session from now on. */
  function StopListening(st: State, ws: Ws): State {
    st.(open := st.open - {ws},
        log := st.log.(gap := if Current(st, ws) then st.log.gap + {st.bound[ws]} else st.log.gap))
  }

  /** The 'close' handler. */
  function CloseEvent(st: State, ws: Ws, now: int): State
    requires ws in st.bound ==> st.bound[ws] in st.sess
  {
    var closed := StopListening(st, ws);
    var handled :=
      if ws !in st.bound || st.sess[st.bound[ws]].socket != Wired(ws) then closed.(authed := closed.authed - {ws})
      else Terminate(closed, st.bound[ws], false, true, now);
    handled.(bound := handled.bound - {ws})
  }

  /** A valid AUTH frame: supersedes the session's previous socket, if it has another. The socket it came
  on may itself be closing already. */
  function Auth(st: State, ws: Ws, sid: Sid, ip: string, now: int): State
    requires sid in st.sess
  {
    var was := st.sess[sid].socket;
    var cut := if was.Wired? && was.ws != ws then st.(authed := st.authed - {was.ws}, open := st.open - {was.ws})
      else st;
    cut.(sess := st.sess[sid := st.sess[sid].(socket := Wired(ws), lastSeen := now, ip := ip)],
         bound := cut.bound[ws := sid], authed := cut.authed[ws := sid],
         log := st.log.(gap := if ws in st.open then st.log.gap else st.log.gap + {sid}))
  }

  // ----- joining -----

  predicate MutuallyUnblocked(st: State, a: Sid, b: Sid) {
    a in st.sess && b in st.sess && a !in st.sess[b].blocked && b !in st.sess[a].blocked
  }

  /** An answer goes to the socket the frame came on, whichever socket the session has by now, and is
  dropped unless that one is open. */
  function Reply(st: State, ws: Ws, sid: Sid, f: Frame): State {
    if ws in st.open && sid in st.log.inbox
    then st.(log := st.log.(inbox := st.log.inbox[sid := st.log.inbox[sid] + [f]]))
    else st
  }

  /** Announces the newcomer and the member `peer` to each other. */
  function MeetOne(st: State, ws: Ws, sid: Sid, peer: Sid): (r: State)
    ensures r.sess == st.sess
  {
    if peer !in st.nodes || !MutuallyUnblocked(st, sid, peer) then st
    else Reply(Send(st, {peer}, PeerJoined(sid, false)), ws, sid, PeerJoined(peer, true))
  }

  function MeetAll(st: State, ws: Ws, sid: Sid, peers: seq<Sid>): (r: State)
    ensures r.sess == st.sess
  {
    if peers == [] then st else MeetOne(MeetAll(st, ws, sid, peers[..|peers| - 1]), ws, sid, peers[|peers| - 1])
  }

  function Forget(met: set<(Sid, Sid)>, sid: Sid): set<(Sid, Sid)> {
    set pair | pair in met && pair.0 != sid && pair.1 != sid
  }

  /** The pairs a newcomer forms with the members it may meet. */
  function Pairs(st: State, sid: Sid, members: set<Sid>): set<(Sid, Sid)> {
    (set p | p in members && MutuallyUnblocked(st, sid, p) :: (sid, p))
      + (set p | p in members && MutuallyUnblocked(st, sid, p) :: (p, sid))
  }

  /** A newcomer's roster starts empty; one that joins on a closing socket is not told of anybody. */
  function Enter(st: State, ws: Ws, sid: Sid, members: set<Sid>): State {
    st.(log := st.log.(inbox := st.log.inbox[sid := []], met := Forget(st.log.met, sid) + Pairs(st, sid, members),
                       gap := if ws in st.open then st.log.gap - {sid} else st.log.gap + {sid},
                       stamp := st.log.stamp[sid := st.log.clock], clock := st.log.clock + 1))
  }

  function Seat(st: State, sid: Sid, c: Channel): State
    requires sid in st.sess
  {
    st.(channels := st.channels[c := Members(st, c) + {sid}], sess := st.sess[sid := st.sess[sid].(place := Inside(c))])
  }

  /** JOIN_CLUSTER on the socket `ws`, visiting the present members in the order `peers`. */
  function Join(st: State, ws: Ws, sid: Sid, peers: seq<Sid>): State
    requires sid in st.sess
  {
    var c := Home(st.sess[sid]);
    if st.sess[sid].place == Inside(c) then st
    else
      var left := Leave(st, sid);
      Seat(MeetAll(Enter(left, ws, sid, Members(left, c) - {sid}), ws, sid, peers), sid, c)
  }

  function Block(st: State, sid: Sid, target: Sid): State
    requires sid in st.sess
  {
    var s := st.sess[sid];
    if |s.blocked| >= MAX_BLOCKED_IDS && target !in s.blocked then st
    else Send(st.(sess := st.sess[sid := s.(blocked := s.blocked + {target})]), {target}, PeerLeft(sid))
  }

  // ----- admission -----

  predicate Full(cfg: Config, st: State) {
    cfg.maxNodes.AtMost? && |st.nodes| >= cfg.maxNodes.n
  }

  /** The live sessions of an address. */
  function OfIp(st: State, ip: string): set<Sid> {
    set sid | sid in st.nodes && sid in st.sess && st.sess[sid].ip == ip
  }

  function CountByIp(st: State, ip: string): nat {
    |OfIp(st, ip)|
  }

  function Insert(st: State, s: Session): State {
    st.(sess := st.sess[st.next := s], nodes := st.nodes + {st.next}, proofs := st.proofs[s.proof := st.next],
        tombs := st.tombs - {s.proof}, next := st.next + 1, log := st.log.(inbox := st.log.inbox[st.next := []]))
  }

  /** A session as registration publishes it: its proof is as fresh as its id. */
  function NewSession(cfg: Config, st: State, nodeId: nat, hash: string, scrypt: bool, at: int, ip: string): Session {
    Session(nodeId, hash, scrypt, st.next, Unwired, Outside, {}, at, at, at + cfg.sessionTtlMs, ip)
  }

  function RotateProof(st: State, sid: Sid, now: int): State
    requires sid in st.sess
  {
    var s := st.sess[sid];
    var dropped := Unindex(st, s.proof, s.nodeId, now);
    dropped.(sess := st.sess[sid := s.(proof := st.next)], proofs := dropped.proofs[st.next := sid],
             tombs := dropped.tombs - {st.next}, next := st.next + 1)
  }

  function Renew(cfg: Config, st: State, sid: Sid, now: int): State
    requires sid in st.sess
  {
    var rotated := RotateProof(st, sid, now);
    rotated.(sess := rotated.sess[sid := rotated.sess[sid].(expiresAt := now + cfg.sessionTtlMs, lastSeen := now)])
  }

  datatype Resolution = Resolved(sid: Sid) | Refused(nodeId: nat) | Unknown

  /** resolveReRegisterProof: whom a proof authenticates, or whom its failure is charged to. */
  function Resolve(st: State, proof: Proof, now: int): Resolution {
    if proof in st.proofs && st.proofs[proof] in st.nodes && st.proofs[proof] in st.sess then
      var s := st.sess[st.proofs[proof]];
      if s.proof != proof || Expired(s, now) then Refused(s.nodeId) else Resolved(st.proofs[proof])
    else if proof in st.tombs && now <= st.tombs[proof].until then Refused(st.tombs[proof].nodeId)
    else Unknown
  }

  predicate Held(st: State, proof: Proof) {
    proof in st.proofs && st.proofs[proof] in st.nodes && st.proofs[proof] in st.sess
  }

  /** The lookup drops an index entry that no longer leads to the session it names. */
  function ProofsAfter(st: State, proof: Proof): map<Proof, Sid> {
    if Held(st, proof) && st.sess[st.proofs[proof]].proof == proof then st.proofs else st.proofs - {proof}
  }

  /** And, when nothing is indexed, an outdated tombstone. */
  function TombsAfter(st: State, proof: Proof, now: int): map<Proof, Tomb> {
    if !Held(st, proof) && proof in st.tombs && now > st.tombs[proof].until then st.tombs - {proof} else st.tombs
  }

  function AfterResolve(st: State, proof: Proof, now: int): State {
    st.(proofs := ProofsAfter(st, proof), tombs := TombsAfter(st, proof, now))
  }

  function CollectTombs(st: State, now: int): State {
    st.(tombs := map p | p in st.tombs && now <= st.tombs[p].until :: st.tombs[p])
  }
}
