/** Admission: registrations that race across the scrypt awaits, and the grants they consume. */
module SessionAdmission {

  import opened Common
  import opened SessionState
  import opened SessionMachine
  import opened SessionChannels

  // ----- one identity for each node -----

  /** Live sessions of one node share one identity hash. */
  ghost predicate OneIdentity(sess: map<Sid, Session>, nodes: set<Sid>) {
    && (forall sid :: sid in nodes ==> sid in sess)
    && (forall a, b :: a in nodes && b in nodes && sess[a].nodeId == sess[b].nodeId ==> sess[a].hash == sess[b].hash)
  }

  ghost predicate Records(sess: map<Sid, Session>, sid: Sid, nodeId: nat, hash: string) {
    sid in sess && sess[sid].nodeId == nodeId && sess[sid].hash == hash
  }

  /** A suspended registration will publish the identity its caller supplied: its donor carries the hash
  its verifier is checked against, and a fresh record is made of the supplied passcode. */
  ghost predicate Faithful(sess: map<Sid, Session>, task: Task) {
    match task
    case Verifying(ask, verifier, donor) => exists h ::
      Records(sess, verifier, ask.nodeId, h) && Records(sess, donor, ask.nodeId, h)
    case Hashing(ask, hash) => hash == ask.hash
  }

  ghost predicate AllFaithful(sess: map<Sid, Session>, tasks: map<nat, Task>) {
    forall id :: id in tasks ==> Faithful(sess, tasks[id])
  }

  ghost predicate Bounded(cfg: Config, nodes: set<Sid>) {
    cfg.maxNodes.AtMost? ==> |nodes| <= cfg.maxNodes.n
  }

  ghost predicate Admitted(cfg: Config, s: Sys) {
    Sound(s.st) && OneIdentity(s.st.sess, s.st.nodes) && AllFaithful(s.st.sess, s.tasks) && Bounded(cfg, s.st.nodes)
  }

  /** The table only grows, and identities never change. */
  ghost predicate Identities(a: map<Sid, Session>, b: map<Sid, Session>) {
    forall sid :: sid in a ==> sid in b && SameIdentityHash(a[sid], b[sid])
  }

  predicate SameIdentityHash(a: Session, b: Session) {
    a.nodeId == b.nodeId && a.hash == b.hash
  }

  lemma FaithfulStays(a: map<Sid, Session>, b: map<Sid, Session>, tasks: map<nat, Task>)
    requires AllFaithful(a, tasks) && Identities(a, b)
    ensures AllFaithful(b, tasks)
  {
    forall id | id in tasks ensures Faithful(b, tasks[id]) {
      if tasks[id].Verifying? {
        var h :| Records(a, tasks[id].verifier, tasks[id].ask.nodeId, h)
          && Records(a, tasks[id].donor, tasks[id].ask.nodeId, h);
        assert Records(b, tasks[id].verifier, tasks[id].ask.nodeId, h)
               && Records(b, tasks[id].donor, tasks[id].ask.nodeId, h);
      }
    }
  }

  /** A change that publishes nobody: the session map shrinks and identities stay. */
  ghost predicate Shrinks(a: State, b: State) {
    b.nodes <= a.nodes && Identities(a.sess, b.sess)
  }

  lemma ShrinkAdmitted(cfg: Config, a: Sys, b: Sys)
    requires Admitted(cfg, a) && Sound(b.st) && Shrinks(a.st, b.st) && AllFaithful(a.st.sess, b.tasks)
    ensures Admitted(cfg, b)
  {
    FaithfulStays(a.st.sess, b.st.sess, b.tasks);
    if cfg.maxNodes.AtMost? {
      SmallerSet(b.st.nodes, a.st.nodes);
    }
  }

  lemma {:induction false} SmallerSet<T>(a: set<T>, b: set<T>)
    requires a <= b
    ensures |a| <= |b|
  {
    if a != {} {
      var x :| x in a;
      SmallerSet(a - {x}, b - {x});
    }
  }

  lemma OneRecordShrinks(a: State, b: State, sid: Sid)
    requires OneRecord(a, b, sid)
    ensures Shrinks(a, b)
  {
  }

  lemma TerminateShrinks(st: State, sid: Sid, close: bool, preserve: bool, now: int)
    requires sid in st.sess
    ensures Shrinks(st, Terminate(st, sid, close, preserve, now))
  {
    TerminateShape(st, sid, close, preserve, now);
  }

  lemma {:induction false} TerminateAllShrinks(st: State, sids: seq<Sid>, now: int)
    ensures Shrinks(st, TerminateAll(st, sids, now))
  {
    if sids != [] {
      var before := TerminateAll(st, sids[..|sids| - 1], now);
      TerminateAllShrinks(st, sids[..|sids| - 1], now);
      if sids[|sids| - 1] in before.sess {
        TerminateShrinks(before, sids[|sids| - 1], true, false, now);
      }
    }
  }

  // ----- publishing -----

  /** The one session that `b` has published over `a`. */
  ghost predicate Publishes(a: State, b: State, sid: Sid, nodeId: nat, hash: string) {
    && sid !in a.sess && b.nodes == a.nodes + {sid} && Records(b.sess, sid, nodeId, hash) && Identities(a.sess, b.sess)
  }

  lemma PublishAdmitted(cfg: Config, a: Sys, b: Sys, sid: Sid, nodeId: nat, hash: string)
    requires Admitted(cfg, a) && Sound(b.st) && Publishes(a.st, b.st, sid, nodeId, hash)
    requires AllFaithful(a.st.sess, b.tasks)
    requires !Conflicts(a.st, nodeId, hash) && !Full(cfg, a.st)
    ensures Admitted(cfg, b)
  {
    FaithfulStays(a.st.sess, b.st.sess, b.tasks);
    forall x, y | x in b.st.nodes && y in b.st.nodes && b.st.sess[x].nodeId == b.st.sess[y].nodeId
      ensures b.st.sess[x].hash == b.st.sess[y].hash
    {
      assert x in a.st.nodes ==> a.st.sess[x].hash == b.st.sess[x].hash;
      assert y in a.st.nodes ==> a.st.sess[y].hash == b.st.sess[y].hash;
    }
    assert sid !in a.st.nodes;
  }

  lemma InsertPublishes(st: State, s: Session)
    requires Numbered(st)
    ensures Publishes(st, Insert(st, s), st.next, s.nodeId, s.hash)
  {
    assert st.next !in st.sess;
  }

  lemma CommitPublishes(cfg: Config, st: State, ask: Ask, hash: string, scrypt: bool, now: int)
    requires Numbered(st) && Commits(cfg, st, ask, hash, now)
    ensures Publishes(st, Commit(cfg, st, ask, hash, scrypt, now), st.next, ask.nodeId, hash)
  {
    InsertPublishes(Consume(st, ask), NewSession(cfg, st, ask.nodeId, hash, scrypt, ask.at, ask.ip));
  }

  lemma CommitAdmitted(cfg: Config, s: Sys, ask: Ask, hash: string, tasks: map<nat, Task>, now: int)
    requires Admitted(cfg, s) && AllFaithful(s.st.sess, tasks)
    ensures Admitted(cfg, s.(st := Commit(cfg, s.st, ask, hash, true, now), tasks := tasks))
  {
    CommitSound(cfg, s.st, ask, hash, true, now);
    var r := s.(st := Commit(cfg, s.st, ask, hash, true, now), tasks := tasks);
    if Commits(cfg, s.st, ask, hash, now) {
      CommitPublishes(cfg, s.st, ask, hash, true, now);
      PublishAdmitted(cfg, s, r, s.st.next, ask.nodeId, hash);
    }
  }

  // ----- registering -----

  lemma {:induction false} SaltedAmong(st: State, same: seq<Sid>)
    ensures forall sid :: sid in Salted(st, same) ==> sid in same
  {
    if same != [] {
      SaltedAmong(st, same[1..]);
    }
  }

  lemma RegisterAdmitted(cfg: Config, s: Sys, ask: Ask, same: seq<Sid>)
    requires Admitted(cfg, s) && Lists(same, NodeSessions(s.st, ask.nodeId))
    ensures Admitted(cfg, OnRegister(cfg, s, ask, same))
  {
    var r := OnRegister(cfg, s, ask, same);
    if same != [] {
      SaltedAmong(s.st, same);
      var verifier := VerifierOf(s.st, same);
      assert verifier in same && same[0] in same;
      assert verifier in NodeSessions(s.st, ask.nodeId) && same[0] in NodeSessions(s.st, ask.nodeId);
      assert Records(s.st.sess, verifier, ask.nodeId, s.st.sess[verifier].hash);
      assert Records(s.st.sess, same[0], ask.nodeId, s.st.sess[verifier].hash);
      assert Faithful(s.st.sess, Verifying(ask, verifier, same[0]));
    }
  }

  lemma VerifiedAdmitted(cfg: Config, s: Sys, id: nat, ok: bool, now: int)
    requires Admitted(cfg, s) && Enabled(s, Verified(id, ok), now)
    ensures Admitted(cfg, OnVerified(cfg, s, id, s.tasks[id], ok, now))
  {
    var task := s.tasks[id];
    assert Faithful(s.st.sess, task);
    if ok {
      var up := s.(st := Upgrade(s.st, task.verifier));
      UpgradeAdmitted(cfg, s, task.verifier);
      assert Faithful(up.st.sess, task);
      var hashing := Hashing(task.ask, task.ask.hash);
      assert Faithful(up.st.sess, hashing);
      CommitAdmitted(cfg, up, task.ask, up.st.sess[task.donor].hash, s.tasks - {id}, now);
    }
  }

  lemma UpgradeAdmitted(cfg: Config, s: Sys, sid: Sid)
    requires Admitted(cfg, s) && sid in s.st.sess
    ensures Admitted(cfg, s.(st := Upgrade(s.st, sid)))
  {
    UpgradeOne(s.st, sid);
    OneRecordShrinks(s.st, Upgrade(s.st, sid), sid);
    EditSound(s.st, sid, s.st.sess[sid].(scrypt := true));
    ShrinkAdmitted(cfg, s, s.(st := Upgrade(s.st, sid)));
  }

  /** Re-registering replaces one live session by one of the same identity, so neither bound moves. */
  lemma ReRegisterAdmitted(cfg: Config, s: Sys, proof: Proof, ip: string, admitted: bool, now: int)
    requires Admitted(cfg, s)
    ensures Admitted(cfg, s.(st := OnReRegister(cfg, s.st, proof, ip, admitted, now)))
  {
    var found := Resolve(s.st, proof, now);
    ReRegisterSound(cfg, s.st, proof, ip, admitted, now);
    if found.Resolved? {
      ReplaceAdmitted(cfg, s, found.sid, ip, now);
    } else {
      AfterResolveUnseen(s.st, proof, now);
    }
  }

  lemma ReplaceAdmitted(cfg: Config, s: Sys, sid: Sid, ip: string, now: int)
    requires Admitted(cfg, s) && sid in s.st.nodes
    ensures var freed := Terminate(s.st, sid, true, false, now);
            var was := s.st.sess[sid];
            Admitted(cfg, s.(st := Insert(freed, NewSession(cfg, freed, was.nodeId, was.hash, was.scrypt, now, ip))))
  {
    var was := s.st.sess[sid];
    var freed := Terminate(s.st, sid, true, false, now);
    TerminateSound(s.st, sid, now);
    TerminateShrinks(s.st, sid, true, false, now);
    TerminateShape(s.st, sid, true, false, now);
    ShrinkAdmitted(cfg, s, s.(st := freed));
    var newcomer := NewSession(cfg, freed, was.nodeId, was.hash, was.scrypt, now, ip);
    InsertSound(freed, newcomer);
    InsertPublishes(freed, newcomer);
    assert freed.nodes == s.st.nodes - {sid} && |freed.nodes| == |s.st.nodes| - 1;
    assert !Conflicts(freed, was.nodeId, was.hash);
    PublishAdmitted(cfg, s.(st := freed), s.(st := Insert(freed, newcomer)), freed.next, was.nodeId, was.hash);
  }

  // ----- every event -----

  lemma SocketAdmitted(cfg: Config, s: Sys, e: Event, now: int)
    requires Admitted(cfg, s) && Enabled(s, e, now) && OfSocket(e)
    ensures Shrinks(s.st, Apply(cfg, s, e, now).st)
  {
    match e
    case Closed(ws) =>
      if ws in s.st.bound {
        TerminateShrinks(StopListening(s.st, ws), s.st.bound[ws], false, true, now);
      }
    case AuthFrame(ws, sid, ip) =>
      AuthOne(s.st, ws, sid, ip, now);
      OneRecordShrinks(s.st, Auth(s.st, ws, sid, ip, now), sid);
    case Connect(_) =>
    case ServerCloses(_) =>
    case JoinFrame(ws, _) => FrameShrinks(s.st, e, now);
    case LeaveFrame(ws) => FrameShrinks(s.st, e, now);
    case BlockFrame(ws, _) => FrameShrinks(s.st, e, now);
  }

  lemma FrameShrinks(st: State, e: Event, now: int)
    requires (e.JoinFrame? || e.LeaveFrame? || e.BlockFrame?) && e.ws in st.bound && st.bound[e.ws] in st.sess
    ensures Shrinks(st, OnFrame(st, e, now))
  {
    FrameOne(st, e, now);
    OneRecordShrinks(st, OnFrame(st, e, now), st.bound[e.ws]);
  }

  lemma RenewShrinks(cfg: Config, st: State, sid: Sid, now: int)
    requires sid in st.sess
    ensures Shrinks(st, Renew(cfg, st, sid, now))
  {
  }

  lemma OtherShrinks(cfg: Config, s: Sys, e: Event, now: int)
    requires Enabled(s, e, now) && !OfSocket(e) && !OfRequest(e)
    ensures Shrinks(s.st, Apply(cfg, s, e, now).st)
  {
    match e
    case Release(sid) => TerminateShrinks(s.st, sid, true, false, now);
    case ReleaseByIp(sids) => TerminateAllShrinks(s.st, sids, now);
    case QrToken(sid) => QrTokenUnseen(cfg, s.st, sid, now);
    case QrRedeem(token, hash) => QrRedeemUnseen(cfg, s.st, token, hash, now);
    case Tick(order) => TerminateAllShrinks(s.st, Purged(cfg, s.st, order, now), now);
  }

  lemma RequestAdmitted(cfg: Config, s: Sys, e: Event, now: int)
    requires Admitted(cfg, s) && Enabled(s, e, now) && OfRequest(e)
    ensures Admitted(cfg, Apply(cfg, s, e, now))
  {
    match e
    case Register(nodeId, hash, ip, grant, same, admitted) =>
      if admitted {
        RegisterAdmitted(cfg, s, FindInvite(s.st, Ask(nodeId, hash, ip, now, None, grant)), same);
      }
    case Verified(id, ok) => VerifiedAdmitted(cfg, s, id, ok, now);
    case Hashed(id) => CommitAdmitted(cfg, s, s.tasks[id].ask, s.tasks[id].hash, s.tasks - {id}, now);
    case ReRegister(proof, ip, admitted) => ReRegisterAdmitted(cfg, s, proof, ip, admitted, now);
    case SessionRenew(sid) =>
      RenewShrinks(cfg, s.st, sid, now);
      RenewSound(cfg, s.st, sid, now);
      ShrinkAdmitted(cfg, s, Apply(cfg, s, e, now));
    case HashRefused(_) =>
  }

  lemma StepAdmitted(cfg: Config, s: Sys, e: Event, now: int)
    requires Admitted(cfg, s)
    ensures Admitted(cfg, Step(cfg, s, e, now))
  {
    if Enabled(s, e, now) {
      StepSound(cfg, s, e, now);
      if OfRequest(e) {
        RequestAdmitted(cfg, s, e, now);
      } else {
        if OfSocket(e) {
          SocketAdmitted(cfg, s, e, now);
        } else {
          OtherShrinks(cfg, s, e, now);
        }
        ShrinkAdmitted(cfg, s, Apply(cfg, s, e, now));
      }
    }
  }

  lemma {:induction false} RunAdmitted(cfg: Config, t: Trace)
    ensures Admitted(cfg, Run(cfg, t))
  {
    if t.After? {
      RunAdmitted(cfg, t.before);
      StepAdmitted(cfg, Run(cfg, t.before), t.event, t.at);
    }
  }

  /** Over all interleavings, live sessions of one node share one identity hash and the session map never
  exceeds its cap. */
  lemma RacingRegistersAgree(cfg: Config, t: Trace)
    ensures var st := Run(cfg, t).st;
            && OneIdentity(st.sess, st.nodes)
            && (cfg.maxNodes.AtMost? ==> |st.nodes| <= cfg.maxNodes.n)
  {
    RunAdmitted(cfg, t);
  }

  /** A registration publishes the node and the identity hash of the passcode its caller supplied, a
  re-registration those of the session whose proof it consumed, and nothing else publishes anyone. */
  ghost predicate CarriedBy(s: Sys, e: Event, now: int, sess: map<Sid, Session>, sid: Sid) {
    match e
    case Verified(id, _) => id in s.tasks && Records(sess, sid, s.tasks[id].ask.nodeId, s.tasks[id].ask.hash)
    case Hashed(id) => id in s.tasks && Records(sess, sid, s.tasks[id].ask.nodeId, s.tasks[id].ask.hash)
    case ReRegister(proof, _, _) =>
      var found := Resolve(s.st, proof, now);
      found.Resolved? && found.sid in s.st.sess
      && Records(sess, sid, s.st.sess[found.sid].nodeId, s.st.sess[found.sid].hash)
    case _ => false
  }

  lemma NewcomersCarryTheirIdentity(cfg: Config, s: Sys, e: Event, now: int, sid: Sid)
    requires Admitted(cfg, s) && sid in Step(cfg, s, e, now).st.nodes && sid !in s.st.nodes
    ensures CarriedBy(s, e, now, Step(cfg, s, e, now).st.sess, sid)
  {
    if OfSocket(e) {
      SocketAdmitted(cfg, s, e, now);
    } else if !OfRequest(e) {
      OtherShrinks(cfg, s, e, now);
    } else {
      RequestCarried(cfg, s, e, now, sid);
    }
  }

  lemma RequestCarried(cfg: Config, s: Sys, e: Event, now: int, sid: Sid)
    requires Admitted(cfg, s) && Enabled(s, e, now) && OfRequest(e)
    requires sid in Apply(cfg, s, e, now).st.nodes && sid !in s.st.nodes
    ensures CarriedBy(s, e, now, Apply(cfg, s, e, now).st.sess, sid)
  {
    if e.Verified? {
      VerifiedPublishes(cfg, s, e.id, e.ok, now, sid);
    } else if e.Hashed? {
      assert Faithful(s.st.sess, s.tasks[e.id]);
      CommitPublishes(cfg, s.st, s.tasks[e.id].ask, s.tasks[e.id].hash, true, now);
    } else if e.ReRegister? {
      ReRegisterPublishes(cfg, s.st, e.proof, e.ip, e.admitted, now, sid);
    } else if e.SessionRenew? {
      RenewShrinks(cfg, s.st, e.sid, now);
    }
  }

  lemma VerifiedPublishes(cfg: Config, s: Sys, id: nat, ok: bool, now: int, sid: Sid)
    requires Admitted(cfg, s) && Enabled(s, Verified(id, ok), now)
    requires sid in OnVerified(cfg, s, id, s.tasks[id], ok, now).st.nodes && sid !in s.st.nodes
    ensures Records(OnVerified(cfg, s, id, s.tasks[id], ok, now).st.sess, sid,
                    s.tasks[id].ask.nodeId, s.tasks[id].ask.hash)
  {
    var task := s.tasks[id];
    assert Faithful(s.st.sess, task);
    if ok {
      var up := Upgrade(s.st, task.verifier);
      UpgradeOne(s.st, task.verifier);
      assert up.sess[task.donor].hash == task.ask.hash;
      if Commits(cfg, up, task.ask, task.ask.hash, now) {
        CommitPublishes(cfg, up, task.ask, task.ask.hash, true, now);
      }
    }
  }

  lemma ReRegisterPublishes(cfg: Config, st: State, proof: Proof, ip: string, admitted: bool, now: int, sid: Sid)
    requires Sound(st) && sid in OnReRegister(cfg, st, proof, ip, admitted, now).nodes && sid !in st.nodes
    ensures && Resolve(st, proof, now).Resolved? && Resolve(st, proof, now).sid in st.sess
            && Records(OnReRegister(cfg, st, proof, ip, admitted, now).sess, sid,
                       st.sess[Resolve(st, proof, now).sid].nodeId,
                       st.sess[Resolve(st, proof, now).sid].hash)
  {
    var found := Resolve(st, proof, now);
    if found.Resolved? {
      var freed := Terminate(st, found.sid, true, false, now);
      TerminateShape(st, found.sid, true, false, now);
      TerminateSound(st, found.sid, now);
      InsertPublishes(freed,
        NewSession(cfg, freed, st.sess[found.sid].nodeId, st.sess[found.sid].hash, st.sess[found.sid].scrypt, now, ip));
    } else {
      AfterResolveUnseen(st, proof, now);
    }
  }

  // ----- grants -----

  /** Each grant belongs to one invitation, and a committed one to a used invitation. */
  ghost predicate Ledgered(invites: map<nat, Invite>, commits: seq<nat>, next: nat) {
    && Distinct(commits)
    && (forall i, j ::
          i in invites && j in invites && invites[i].grant.Granted? && invites[i].grant == invites[j].grant ==> i == j)
    && (forall i :: i in invites ==> i < next && (invites[i].grant.Granted? ==> invites[i].grant.id < next))
    && (forall i :: i in invites && invites[i].grant.Granted? && !invites[i].used ==> invites[i].grant.id !in commits)
    && (forall g :: g in commits ==> g < next)
  }

  /** A suspended registration holds an invitation to the node and identity it is registering. */
  ghost predicate Invited(invites: map<nat, Invite>, ask: Ask) {
    if ask.invite.Some?
    then && ask.grant.Granted? && ask.invite.value in invites && invites[ask.invite.value].owner == ask.nodeId
         && invites[ask.invite.value].hash == ask.hash && invites[ask.invite.value].grant == ask.grant
    else ask.grant.NoGrant?
  }

  ghost predicate GrantsKept(s: Sys) {
    && Ledgered(s.st.invites, s.st.log.commits, s.st.next)
    && forall id :: id in s.tasks ==> Invited(s.st.invites, s.tasks[id].ask)
  }

  /** Invitations are never withdrawn from their holders, and keep whom they are for and any grant. */
  ghost predicate InvitesStay(a: map<nat, Invite>, b: map<nat, Invite>) {
    forall i :: i in a
      ==> i in b && b[i].owner == a[i].owner && b[i].hash == a[i].hash
          && (a[i].grant.Granted? ==> b[i].grant == a[i].grant)
  }

  lemma SameLedger(a: State, b: State)
    requires Ledgered(a.invites, a.log.commits, a.next) && b.invites == a.invites
    requires b.log.commits == a.log.commits && a.next <= b.next
    ensures Ledgered(b.invites, b.log.commits, b.next)
  {
  }

  lemma ConsumeLedgered(st: State, ask: Ask, now: int)
    requires Ledgered(st.invites, st.log.commits, st.next) && Invited(st.invites, ask) && GrantGood(st, ask, now)
    ensures var r := Consume(st, ask);
            && Ledgered(r.invites, r.log.commits, st.next) && InvitesStay(st.invites, r.invites)
            && (ask.invite.Some? ==> r.log.commits == st.log.commits + [ask.grant.id])
            && (ask.invite.None? ==> r.log.commits == st.log.commits)
  {
    if ask.invite.Some? {
      assert (st.log.commits + [ask.grant.id])[..|st.log.commits|] == st.log.commits;
    }
  }

  lemma CommitLedgered(cfg: Config, st: State, ask: Ask, hash: string, scrypt: bool, now: int)
    requires Ledgered(st.invites, st.log.commits, st.next) && Invited(st.invites, ask)
    ensures var r := Commit(cfg, st, ask, hash, scrypt, now);
            Ledgered(r.invites, r.log.commits, r.next) && InvitesStay(st.invites, r.invites)
  {
    if Commits(cfg, st, ask, hash, now) {
      ConsumeLedgered(st, ask, now);
    }
  }

  lemma GuessLedgered(invites: map<nat, Invite>, commits: seq<nat>, next: nat, token: nat, v: Invite)
    requires Ledgered(invites, commits, next) && token in invites && v.grant == invites[token].grant
    requires v.owner == invites[token].owner && v.hash == invites[token].hash && (invites[token].used ==> v.used)
    ensures Ledgered(invites[token := v], commits, next) && InvitesStay(invites, invites[token := v])
  {
  }

  lemma MintLedgered(invites: map<nat, Invite>, commits: seq<nat>, next: nat, token: nat)
    requires Ledgered(invites, commits, next) && token in invites && invites[token].grant.NoGrant?
    ensures Ledgered(invites[token := invites[token].(grant := Granted(next))], commits, next + 1)
    ensures InvitesStay(invites, invites[token := invites[token].(grant := Granted(next))])
  {
  }

  lemma RedeemLedgered(cfg: Config, st: State, token: nat, hash: string, now: int)
    requires Ledgered(st.invites, st.log.commits, st.next)
    ensures var r := OnQrRedeem(cfg, st, token, hash, now);
            && Ledgered(r.invites, r.log.commits, r.next) && InvitesStay(st.invites, r.invites)
  {
    var found := RedeemResult(st, token, hash, now);
    if found.WrongPasscode? {
      GuessLedgered(st.invites, st.log.commits, st.next, token, Guessed(cfg, st.invites[token]));
    } else if found.NewGrant? {
      MintLedgered(st.invites, st.log.commits, st.next, token);
    } else {
      assert OnQrRedeem(cfg, st, token, hash, now) == st;
    }
  }

  lemma QrTokenLedgered(cfg: Config, st: State, sid: Sid, now: int)
    requires Ledgered(st.invites, st.log.commits, st.next) && sid in st.sess
    ensures var r := OnQrToken(cfg, st, sid, now);
            && Ledgered(r.invites, r.log.commits, r.next) && InvitesStay(st.invites, r.invites)
  {
  }

  /** Steps that do not touch invitations. */
  predicate SameGrants(a: State, b: State) {
    b.invites == a.invites && b.log.commits == a.log.commits && a.next <= b.next
  }

  lemma {:induction false} TerminateAllGrants(st: State, sids: seq<Sid>, now: int)
    ensures SameGrants(st, TerminateAll(st, sids, now))
  {
    if sids != [] {
      var before := TerminateAll(st, sids[..|sids| - 1], now);
      TerminateAllGrants(st, sids[..|sids| - 1], now);
      if sids[|sids| - 1] in before.sess {
        TerminateShape(before, sids[|sids| - 1], true, false, now);
      }
    }
  }

  lemma SocketGrants(cfg: Config, s: Sys, e: Event, now: int)
    requires Enabled(s, e, now) && OfSocket(e)
    ensures SameGrants(s.st, Apply(cfg, s, e, now).st) && Apply(cfg, s, e, now).tasks == s.tasks
  {
    match e
    case Closed(ws) =>
      if ws in s.st.bound {
        TerminateShape(StopListening(s.st, ws), s.st.bound[ws], false, true, now);
      }
    case AuthFrame(ws, sid, ip) => AuthOne(s.st, ws, sid, ip, now);
    case Connect(_) =>
    case ServerCloses(_) =>
    case JoinFrame(_, _) => FrameOne(s.st, e, now);
    case LeaveFrame(_) => FrameOne(s.st, e, now);
    case BlockFrame(_, _) => FrameOne(s.st, e, now);
  }

  lemma ReRegisterGrants(cfg: Config, st: State, proof: Proof, ip: string, admitted: bool, now: int)
    ensures SameGrants(st, OnReRegister(cfg, st, proof, ip, admitted, now))
  {
    var found := Resolve(st, proof, now);
    if found.Resolved? && found.sid in st.sess {
      TerminateShape(st, found.sid, true, false, now);
    }
  }

  ghost predicate KeepsGrants(s: Sys, r: Sys) {
    Ledgered(r.st.invites, r.st.log.commits, r.st.next) && InvitesStay(s.st.invites, r.st.invites)
    && forall id ::
         id in r.tasks
         ==> (id in s.tasks && r.tasks[id].ask == s.tasks[id].ask) || Invited(r.st.invites, r.tasks[id].ask)
  }

  lemma KeptGrants(s: Sys, r: Sys)
    requires GrantsKept(s) && KeepsGrants(s, r)
    ensures GrantsKept(r)
  {
    forall id | id in r.tasks ensures Invited(r.st.invites, r.tasks[id].ask) {
      if id in s.tasks && r.tasks[id].ask == s.tasks[id].ask {
        assert Invited(s.st.invites, s.tasks[id].ask);
      }
    }
  }

  lemma RegisterGrants(cfg: Config, s: Sys, e: Event, now: int)
    requires GrantsKept(s) && e.Register? && Enabled(s, e, now)
    ensures KeepsGrants(s, Apply(cfg, s, e, now))
  {
    if e.admitted {
      var ask := FindInvite(s.st, Ask(e.nodeId, e.hash, e.ip, now, None, e.grant));
      assert ask.invite.Some? ==> Offers(s.st, ask);
      assert e.grant.Granted? && !Offers(s.st, ask) ==> OnRegister(cfg, s, ask, e.same) == s;
    }
  }

  lemma VerifiedGrants(cfg: Config, s: Sys, id: nat, ok: bool, now: int)
    requires GrantsKept(s) && Enabled(s, Verified(id, ok), now)
    ensures KeepsGrants(s, OnVerified(cfg, s, id, s.tasks[id], ok, now))
  {
    var task := s.tasks[id];
    var up := Upgrade(s.st, task.verifier);
    UpgradeOne(s.st, task.verifier);
    SameLedger(s.st, up);
    assert Invited(s.st.invites, task.ask);
    CommitLedgered(cfg, up, task.ask, up.sess[task.donor].hash, true, now);
  }

  lemma RequestGrants(cfg: Config, s: Sys, e: Event, now: int)
    requires GrantsKept(s) && Enabled(s, e, now) && OfRequest(e)
    ensures KeepsGrants(s, Apply(cfg, s, e, now))
  {
    match e
    case Register(_, _, _, _, _, _) => RegisterGrants(cfg, s, e, now);
    case Verified(id, ok) => VerifiedGrants(cfg, s, id, ok, now);
    case Hashed(id) =>
      assert Invited(s.st.invites, s.tasks[id].ask);
      CommitLedgered(cfg, s.st, s.tasks[id].ask, s.tasks[id].hash, true, now);
    case ReRegister(proof, ip, admitted) =>
      ReRegisterGrants(cfg, s.st, proof, ip, admitted, now);
      SameLedger(s.st, Apply(cfg, s, e, now).st);
    case SessionRenew(_) => SameLedger(s.st, Apply(cfg, s, e, now).st);
    case HashRefused(_) =>
  }

  lemma OtherGrants(cfg: Config, s: Sys, e: Event, now: int)
    requires GrantsKept(s) && Enabled(s, e, now) && !OfSocket(e) && !OfRequest(e)
    ensures KeepsGrants(s, Apply(cfg, s, e, now))
  {
    match e
    case Release(sid) =>
      TerminateShape(s.st, sid, true, false, now);
      SameLedger(s.st, Apply(cfg, s, e, now).st);
    case ReleaseByIp(sids) =>
      TerminateAllGrants(s.st, sids, now);
      SameLedger(s.st, Apply(cfg, s, e, now).st);
    case QrToken(sid) => QrTokenLedgered(cfg, s.st, sid, now);
    case QrRedeem(token, hash) => RedeemLedgered(cfg, s.st, token, hash, now);
    case Tick(order) =>
      TerminateAllGrants(s.st, Purged(cfg, s.st, order, now), now);
      SameLedger(s.st, Apply(cfg, s, e, now).st);
  }

  lemma StepGrants(cfg: Config, s: Sys, e: Event, now: int)
    requires GrantsKept(s)
    ensures GrantsKept(Step(cfg, s, e, now))
  {
    if Enabled(s, e, now) {
      if OfSocket(e) {
        SocketGrants(cfg, s, e, now);
        SameLedger(s.st, Apply(cfg, s, e, now).st);
      } else if OfRequest(e) {
        RequestGrants(cfg, s, e, now);
      } else {
        OtherGrants(cfg, s, e, now);
      }
      KeptGrants(s, Apply(cfg, s, e, now));
    }
  }

  /** Over every run each admission grant commits at most one session, and registrations still suspended
  hold grants made out to the identity they register. */
  lemma {:induction false} EachGrantCommitsOnce(cfg: Config, t: Trace)
    ensures GrantsKept(Run(cfg, t)) && Distinct(Run(cfg, t).st.log.commits)
  {
    if t.After? {
      EachGrantCommitsOnce(cfg, t.before);
      StepGrants(cfg, Run(cfg, t.before), t.event, t.at);
    }
  }
}
