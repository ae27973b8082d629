/** The session protocol as a machine: every event is one synchronous stretch of a handler, and a
registration suspended in a scrypt hash is a task that any other event may overtake. */
module SessionMachine {

  import opened Common
  import opened SessionState

  /** A registration as its request made it; `invite` is the invitation record its grant was found in. */
  datatype Ask = Ask(nodeId: nat, hash: string, ip: string, at: int, invite: Option<nat>, grant: Grant)

  datatype Task =
    // verifying the passcode against one session of an occupied node, another being the donor
    | Verifying(ask: Ask, verifier: Sid, donor: Sid)
    // hashing a fresh record for this identity
    | Hashing(ask: Ask, hash: string)

  datatype Sys = Sys(st: State, tasks: map<nat, Task>, nextTask: nat)

  datatype Event =
    // sockets; `peers` is the order in which the channel's members are visited
    | Connect(ws: Ws)
    | AuthFrame(ws: Ws, sid: Sid, ip: string)
    | JoinFrame(ws: Ws, peers: seq<Sid>)
    | LeaveFrame(ws: Ws)
    | BlockFrame(ws: Ws, target: Sid)
    | ServerCloses(ws: Ws)
    | Closed(ws: Ws)
    // requests; `same` lists the live sessions of the node, in the map's order, and `admitted` says
    // that no brute-force lock or freeze stands in the way
    | Register(nodeId: nat, hash: string, ip: string, grant: Grant, same: seq<Sid>, admitted: bool)
    | Verified(id: nat, ok: bool)
    | Hashed(id: nat)
    | HashRefused(id: nat)
    | ReRegister(proof: Proof, ip: string, admitted: bool)
    | SessionRenew(sid: Sid)
    | Release(sid: Sid)
    | ReleaseByIp(sids: seq<Sid>)
    | QrToken(sid: Sid)
    | QrRedeem(token: nat, hash: string)
    // the cleanup tick, purging in the map's order
    | Tick(order: seq<Sid>)

  // ----- registering -----

  predicate Matches(v: Invite, ask: Ask) {
    !v.used && v.expiresAt >= ask.at && v.owner == ask.nodeId && v.hash == ask.hash && v.grant == ask.grant
  }

  /** An invitation in the token map that carries this grant. */
  predicate Offers(st: State, ask: Ask) {
    ask.grant.Granted? && ask.invite.Some? && ask.invite.value in st.qrTokens && ask.invite.value in st.invites
    && Matches(st.invites[ask.invite.value], ask)
  }

  predicate Conflicts(st: State, nodeId: nat, hash: string) {
    exists sid :: sid in st.nodes && sid in st.sess && st.sess[sid].nodeId == nodeId && st.sess[sid].hash != hash
  }

  predicate RoomFor(cfg: Config, st: State, ip: string) {
    !Full(cfg, st) && CountByIp(st, ip) < cfg.maxNodesPerIp
  }

  /** The grant is still there to be consumed. */
  predicate GrantGood(st: State, ask: Ask, now: int) {
    ask.invite.Some? ==>
      && ask.invite.value in st.invites && !st.invites[ask.invite.value].used
      && st.invites[ask.invite.value].expiresAt >= now
      && st.invites[ask.invite.value].grant == ask.grant
  }

  function Consume(st: State, ask: Ask): State {
    if ask.invite.Some? && ask.invite.value in st.invites then
      st.(invites := st.invites[ask.invite.value := st.invites[ask.invite.value].(used := true)],
          log := st.log.(commits := st.log.commits + (if ask.grant.Granted? then [ask.grant.id] else [])))
    else st
  }

  /** The commit point: every check is repeated, then the grant is consumed and the session published. */
  predicate Commits(cfg: Config, st: State, ask: Ask, hash: string, now: int) {
    !Conflicts(st, ask.nodeId, hash) && RoomFor(cfg, st, ask.ip) && GrantGood(st, ask, now)
  }

  function Commit(cfg: Config, st: State, ask: Ask, hash: string, scrypt: bool, now: int): State {
    if Commits(cfg, st, ask, hash, now)
    then Insert(Consume(st, ask), NewSession(cfg, st, ask.nodeId, hash, scrypt, ask.at, ask.ip))
    else st
  }

  function Drop(s: Sys, id: nat): Sys {
    s.(tasks := s.tasks - {id})
  }

  /** The session whose verifier is used: the first with a salted one, or else the first. */
  function VerifierOf(st: State, same: seq<Sid>): Sid
    requires same != []
  {
    var salted := Salted(st, same);
    if salted == [] then same[0] else salted[0]
  }

  function Salted(st: State, same: seq<Sid>): seq<Sid> {
    if same == [] then []
    else (if same[0] in st.sess && st.sess[same[0]].scrypt then [same[0]] else []) + Salted(st, same[1..])
  }

  function OnRegister(cfg: Config, s: Sys, ask: Ask, same: seq<Sid>): Sys {
    if ask.grant.Granted? && !Offers(s.st, ask) then s
    else if same != [] then
      s.(tasks := s.tasks[s.nextTask := Verifying(ask, VerifierOf(s.st, same), same[0])], nextTask := s.nextTask + 1)
    else if !RoomFor(cfg, s.st, ask.ip) then s
    else s.(tasks := s.tasks[s.nextTask := Hashing(ask, ask.hash)], nextTask := s.nextTask + 1)
  }

  function Upgrade(st: State, sid: Sid): State {
    if sid in st.sess then st.(sess := st.sess[sid := st.sess[sid].(scrypt := true)]) else st
  }

  function OnVerified(cfg: Config, s: Sys, id: nat, task: Task, ok: bool, now: int): Sys
    requires task.Verifying? && task.donor in s.st.sess
  {
    if !ok then Drop(s, id)
    else
      var st := Upgrade(s.st, task.verifier);
      var donor := st.sess[task.donor];
      if !RoomFor(cfg, st, task.ask.ip) then Drop(s, id).(st := st)
      else if donor.scrypt then Drop(s, id).(st := Commit(cfg, st, task.ask, donor.hash, true, now))
      else s.(st := st, tasks := s.tasks[id := Hashing(task.ask, task.ask.hash)])
  }

  // ----- the other requests -----

  function OnReRegister(cfg: Config, st: State, proof: Proof, ip: string, admitted: bool, now: int): State {
    match Resolve(st, proof, now)
    case Resolved(sid) =>
      if sid !in st.sess || !admitted || (CountByIp(st, ip) >= cfg.maxNodesPerIp && st.sess[sid].ip != ip) then st
      else
        var s := st.sess[sid];
        var freed := Terminate(st, sid, true, false, now);
        Insert(freed, NewSession(cfg, freed, s.nodeId, s.hash, s.scrypt, now, ip))
    case _ => AfterResolve(st, proof, now)
  }

  function TerminateAll(st: State, sids: seq<Sid>, now: int): State {
    if sids == [] then st
    else
      var before := TerminateAll(st, sids[..|sids| - 1], now);
      var sid := sids[|sids| - 1];
      if sid in before.sess then Terminate(before, sid, true, false, now) else before
  }

  function OnQrToken(cfg: Config, st: State, sid: Sid, now: int): State
    requires sid in st.sess
  {
    var s := st.sess[sid];
    st.(invites := st.invites[st.next := Invite(s.nodeId, s.hash, now + cfg.qrTokenTtlMs, false, NoGrant, 0)],
        qrTokens := st.qrTokens + {st.next}, next := st.next + 1)
  }

  datatype Redeemed = Invalid | WrongPasscode | SameGrant | NewGrant

  function RedeemResult(st: State, token: nat, hash: string, now: int): Redeemed {
    if token !in st.qrTokens || token !in st.invites || st.invites[token].used
       || now > st.invites[token].expiresAt then Invalid
    else if hash != st.invites[token].hash then WrongPasscode
    else if st.invites[token].grant.Granted? then SameGrant
    else NewGrant
  }

  /** One more wrong guess; the last one burns the invitation. */
  function Guessed(cfg: Config, v: Invite): Invite {
    v.(failures := v.failures + 1, used := v.failures + 1 >= cfg.maxAttempts)
  }

  /** A right passcode mints the invitation's one grant; a wrong one counts, and burns it in the end. */
  function OnQrRedeem(cfg: Config, st: State, token: nat, hash: string, now: int): State {
    match RedeemResult(st, token, hash, now)
    case WrongPasscode => st.(invites := st.invites[token := Guessed(cfg, st.invites[token])])
    case NewGrant => st.(invites := st.invites[token := st.invites[token].(grant := Granted(st.next))],
      next := st.next + 1)
    case _ => st
  }

  predicate Purgeable(cfg: Config, s: Session, now: int) {
    Expired(s, now) || (s.socket.Unwired? && now - s.lastSeen >= cfg.disconnectedTtlMs)
  }

  /** The sessions a tick purges, in order. */
  function Purged(cfg: Config, st: State, order: seq<Sid>, now: int): seq<Sid> {
    if order == [] then []
    else
      var init, last := Purged(cfg, st, order[..|order| - 1], now), order[|order| - 1];
      if last in st.nodes && last in st.sess && Purgeable(cfg, st.sess[last], now) then init + [last] else init
  }

  function OnTick(cfg: Config, st: State, order: seq<Sid>, now: int): State {
    var purged := TerminateAll(st, Purged(cfg, st, order, now), now);
    CollectTombs(purged, now).(
      qrTokens :=
        set t | t in purged.qrTokens
                && !(t in purged.invites && (now > purged.invites[t].expiresAt || purged.invites[t].used)))
  }

  // ----- frames -----

  /** A frame on an authenticated socket: an expired session is closed instead of served. */
  function OnFrame(st: State, e: Event, now: int): State
    requires (e.JoinFrame? || e.LeaveFrame? || e.BlockFrame?) && e.ws in st.bound && st.bound[e.ws] in st.sess
  {
    var sid := st.bound[e.ws];
    if Expired(st.sess[sid], now) then StopListening(st, e.ws)
    else
      var seen := Touch(st, sid, now);
      match e
      case JoinFrame(ws, peers) => Join(seen, ws, sid, peers)
      case LeaveFrame(_) => Leave(seen, sid)
      case BlockFrame(_, target) => Block(seen, sid, target)
  }

  // ----- the machine -----

  /** `order` lists a finite set once. */
  ghost predicate Lists(order: seq<Sid>, sids: set<Sid>) {
    (forall sid :: sid in order <==> sid in sids) && forall i, j :: 0 <= i < j < |order| ==> order[i] != order[j]
  }

  function NodeSessions(st: State, nodeId: nat): set<Sid> {
    set sid | sid in st.nodes && sid in st.sess && st.sess[sid].nodeId == nodeId
  }

  /** A JOIN finds its session live and with a socket, or closes it as expired. The handler does not test
  this: SessionChannels.JoinKeepsChannelsIff says what it costs. */
  predicate JoinGuarded(st: State, ws: Ws, now: int) {
    ws in st.bound && st.bound[ws] in st.sess &&
    (Expired(st.sess[st.bound[ws]], now) || (st.bound[ws] in st.nodes && st.sess[st.bound[ws]].socket.Wired?))
  }

  /** The environment's side: a socket may deliver frames while it is closing and after it was superseded,
  but no JOIN is served for a session that was evicted or has lost its socket; a token resolves to a live
  unexpired session, and scrypt answers correctly. */
  ghost predicate Enabled(s: Sys, e: Event, now: int) {
    var st := s.st;
    match e
    case Connect(ws) => ws !in st.open && ws !in st.bound
    case AuthFrame(ws, sid, _) => ws !in st.bound && sid in st.nodes && sid in st.sess && !Expired(st.sess[sid], now)
    case JoinFrame(ws, peers) =>
      && JoinGuarded(st, ws, now)
      && Lists(peers, Members(st, Home(st.sess[st.bound[ws]])) - {st.bound[ws]})
    case LeaveFrame(ws) => ws in st.bound && st.bound[ws] in st.sess
    case BlockFrame(ws, _) => ws in st.bound && st.bound[ws] in st.sess
    case ServerCloses(ws) => true
    case Closed(ws) => ws in st.bound ==> st.bound[ws] in st.sess
    case Register(nodeId, _, _, _, same, _) => nodeId > 0 && Lists(same, NodeSessions(st, nodeId))
    case Verified(id, ok) =>
      && id in s.tasks && s.tasks[id].Verifying? && s.tasks[id].donor in st.sess && s.tasks[id].verifier in st.sess
      && (ok <==> st.sess[s.tasks[id].verifier].hash == s.tasks[id].ask.hash)
    case Hashed(id) => id in s.tasks && s.tasks[id].Hashing?
    case HashRefused(id) => id in s.tasks
    case SessionRenew(sid) => sid in st.nodes && sid in st.sess && !Expired(st.sess[sid], now)
    case Release(sid) => sid in st.nodes && sid in st.sess && !Expired(st.sess[sid], now)
    case ReleaseByIp(sids) => forall sid :: sid in sids ==> sid in st.nodes
    case QrToken(sid) => sid in st.nodes && sid in st.sess && !Expired(st.sess[sid], now)
    case Tick(order) => Lists(order, st.nodes)
    case _ => true
  }

  ghost function FindInvite(st: State, ask: Ask): Ask {
    if exists id :: Offers(st, ask.(invite := Some(id)))
    then var id :| Offers(st, ask.(invite := Some(id))); ask.(invite := Some(id))
    else ask
  }

  ghost function Apply(cfg: Config, s: Sys, e: Event, now: int): Sys
    requires Enabled(s, e, now)
  {
    match e
    case Connect(ws) => s.(st := s.st.(open := s.st.open + {ws}))
    case AuthFrame(ws, sid, ip) => s.(st := Auth(s.st, ws, sid, ip, now))
    case JoinFrame(_, _) => s.(st := OnFrame(s.st, e, now))
    case LeaveFrame(_) => s.(st := OnFrame(s.st, e, now))
    case BlockFrame(_, _) => s.(st := OnFrame(s.st, e, now))
    case ServerCloses(ws) => s.(st := StopListening(s.st, ws))
    case Closed(ws) => s.(st := CloseEvent(s.st, ws, now))
    case Register(nodeId, hash, ip, grant, same, admitted) =>
      if admitted then OnRegister(cfg, s, FindInvite(s.st, Ask(nodeId, hash, ip, now, None, grant)), same) else s
    case Verified(id, ok) => OnVerified(cfg, s, id, s.tasks[id], ok, now)
    case Hashed(id) => Drop(s, id).(st := Commit(cfg, s.st, s.tasks[id].ask, s.tasks[id].hash, true, now))
    case HashRefused(id) => Drop(s, id)
    case ReRegister(proof, ip, admitted) => s.(st := OnReRegister(cfg, s.st, proof, ip, admitted, now))
    case SessionRenew(sid) => s.(st := Renew(cfg, s.st, sid, now))
    case Release(sid) => s.(st := Terminate(s.st, sid, true, false, now))
    case ReleaseByIp(sids) => s.(st := TerminateAll(s.st, sids, now))
    case QrToken(sid) => s.(st := OnQrToken(cfg, s.st, sid, now))
    case QrRedeem(token, hash) => s.(st := OnQrRedeem(cfg, s.st, token, hash, now))
    case Tick(order) => s.(st := OnTick(cfg, s.st, order, now))
  }

  /** One atomic step; an event the environment cannot produce changes nothing. */
  ghost function Step(cfg: Config, s: Sys, e: Event, now: int): Sys {
    if Enabled(s, e, now) then Apply(cfg, s, e, now) else s
  }

  // ----- runs -----

  datatype Trace = Started | After(before: Trace, event: Event, at: int)

  const EMPTY_LOG := Log(map[], {}, map[], {}, map[], [], 0)
  const EMPTY := State(map[], {}, map[], map[], map[], {}, map[], map[], map[], {}, 1, EMPTY_LOG)

  ghost function Run(cfg: Config, t: Trace): Sys {
    match t
    case Started => Sys(EMPTY, map[], 0)
    case After(before, e, at) => Step(cfg, Run(cfg, before), e, at)
  }
}
