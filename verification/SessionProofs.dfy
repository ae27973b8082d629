/** Re-registration proofs: the index is exact, and a retired proof is only ever charged to its owner. */
module SessionProofs {

  import opened SessionState
  import opened SessionMachine
  import opened SessionChannels

  /** The index maps exactly the live sessions' current proofs to them, and no indexed proof is retired. */
  ghost predicate Indexed(st: State) {
    && (forall sid :: sid in st.nodes ==> sid in st.sess)
    && (forall p :: p in st.proofs ==> st.proofs[p] in st.nodes && st.sess[st.proofs[p]].proof == p)
    && (forall sid :: sid in st.nodes ==> st.sess[sid].proof in st.proofs && st.proofs[st.sess[sid].proof] == sid)
    && (forall p :: p in st.tombs ==> p in st.log.retired)
    && (forall p :: p in st.log.retired ==> p !in st.proofs && p < st.next && st.log.retired[p].nodeId > 0)
    && (forall sid :: sid in st.sess ==> st.sess[sid].proof < st.next && st.sess[sid].nodeId > 0)
  }

  /** Until its tombstone's time is over a retired proof has that tombstone. */
  ghost predicate Charged(st: State, now: int) {
    forall p :: p in st.log.retired && now <= st.log.retired[p].until
      ==> p in st.tombs && st.tombs[p] == st.log.retired[p]
  }

  ghost predicate Proven(st: State, now: int) {
    Indexed(st) && Charged(st, now)
  }

  /** What was retired stays retired, with the same charge. */
  ghost predicate Retains(a: State, b: State) {
    forall p :: p in a.log.retired ==> p in b.log.retired && b.log.retired[p] == a.log.retired[p]
  }

  lemma ChargedLater(st: State, now: int, later: int)
    requires Charged(st, now) && now <= later
    ensures Charged(st, later)
  {
  }

  // ----- resolving -----

  /** A proof authenticates a session exactly when it is that live, unexpired session's current one. */
  lemma ResolvesIffCurrent(st: State, proof: Proof, now: int, sid: Sid)
    requires Indexed(st)
    ensures Resolve(st, proof, now) == Resolved(sid)
            <==> (sid in st.nodes && st.sess[sid].proof == proof && !Expired(st.sess[sid], now))
  {
  }

  /** A retired proof never authenticates anyone, and until its tombstone expires it is charged to the node
  that owned it. */
  lemma RetiredIsCharged(st: State, proof: Proof, now: int)
    requires Proven(st, now) && proof in st.log.retired
    ensures !Resolve(st, proof, now).Resolved?
    ensures now <= st.log.retired[proof].until ==> Resolve(st, proof, now) == Refused(st.log.retired[proof].nodeId)
  {
  }

  // ----- the operations -----

  /** Changes the index does not see. */
  ghost predicate SameIndex(a: State, b: State) {
    && b.proofs == a.proofs && b.tombs == a.tombs && b.nodes == a.nodes && b.log.retired == a.log.retired
    && a.next <= b.next
    && a.sess.Keys == b.sess.Keys
    && (forall sid ::
          sid in a.sess ==> b.sess[sid].proof == a.sess[sid].proof && b.sess[sid].nodeId == a.sess[sid].nodeId)
  }

  lemma OneRecordProven(a: State, b: State, sid: Sid, now: int)
    requires Proven(a, now) && OneRecord(a, b, sid)
    ensures Proven(b, now) && Retains(a, b)
  {
    SameIndexProven(a, b, now);
  }

  lemma SameIndexProven(a: State, b: State, now: int)
    requires Proven(a, now) && SameIndex(a, b)
    ensures Proven(b, now) && Retains(a, b)
  {
  }

  lemma UnindexProven(st: State, sid: Sid, now: int)
    requires Proven(st, now) && sid in st.nodes
    ensures Proven(Evict(st, sid, now), now) && Retains(st, Evict(st, sid, now))
    ensures Evict(st, sid, now).log.retired
            == st.log.retired[st.sess[sid].proof := Tomb(st.sess[sid].nodeId, now + PROOF_TOMBSTONE_TTL_MS)]
  {
  }

  lemma InsertProven(st: State, s: Session, now: int)
    requires Proven(st, now) && Numbered(st) && s.proof == st.next && s.nodeId > 0
    ensures Proven(Insert(st, s), now) && Retains(st, Insert(st, s))
  {
    assert st.next !in st.sess;
  }

  lemma RotateShape(st: State, sid: Sid, now: int)
    requires sid in st.sess && st.sess[sid].nodeId > 0 && st.next !in st.tombs && st.next != st.sess[sid].proof
    ensures var r := RotateProof(st, sid, now);
            var p := st.sess[sid].proof;
            var tomb := Tomb(st.sess[sid].nodeId, now + PROOF_TOMBSTONE_TTL_MS);
            && r.sess == st.sess[sid := st.sess[sid].(proof := st.next)] && r.nodes == st.nodes && r.next == st.next + 1
            && r.proofs == (st.proofs - {p})[st.next := sid] && r.tombs == st.tombs[p := tomb]
            && r.log.retired == st.log.retired[p := tomb]
  {
  }

  lemma RotateProven(st: State, sid: Sid, now: int)
    requires Proven(st, now) && sid in st.nodes
    ensures var r := RotateProof(st, sid, now);
            && Proven(r, now) && Retains(st, r)
            && st.sess[sid].proof in r.log.retired
            && r.log.retired[st.sess[sid].proof] == Tomb(st.sess[sid].nodeId, now + PROOF_TOMBSTONE_TTL_MS)
  {
    RotateShape(st, sid, now);
    var tomb := Tomb(st.sess[sid].nodeId, now + PROOF_TOMBSTONE_TTL_MS);
    RotatedIndexed(st, RotateProof(st, sid, now), sid, tomb);
    RotatedCharged(st, RotateProof(st, sid, now), st.sess[sid].proof, tomb, now);
  }

  lemma RotatedIndexed(st: State, r: State, sid: Sid, tomb: Tomb)
    requires Indexed(st) && sid in st.nodes && tomb.nodeId > 0
    requires r.sess == st.sess[sid := st.sess[sid].(proof := st.next)] && r.nodes == st.nodes && r.next == st.next + 1
    requires r.proofs == (st.proofs - {st.sess[sid].proof})[st.next := sid]
    requires r.tombs == st.tombs[st.sess[sid].proof := tomb]
    requires r.log.retired == st.log.retired[st.sess[sid].proof := tomb]
    ensures Indexed(r)
  {
    assert forall p :: p in r.proofs && p != st.next ==> r.proofs[p] != sid;
  }

  lemma RotatedCharged(st: State, r: State, proof: Proof, tomb: Tomb, now: int)
    requires Charged(st, now) && proof !in st.log.retired
    requires r.tombs == st.tombs[proof := tomb] && r.log.retired == st.log.retired[proof := tomb]
    ensures Charged(r, now) && Retains(st, r)
  {
  }

  lemma CollectProven(st: State, now: int)
    requires Proven(st, now)
    ensures Proven(CollectTombs(st, now), now) && Retains(st, CollectTombs(st, now))
  {
  }

  lemma AfterResolveProven(st: State, proof: Proof, now: int)
    requires Proven(st, now)
    ensures Proven(AfterResolve(st, proof, now), now) && Retains(st, AfterResolve(st, proof, now))
  {
    if proof !in st.proofs {
      assert st.proofs - {proof} == st.proofs;
    }
  }

  lemma CutSameIndex(st: State, sid: Sid, close: bool)
    requires sid in st.sess
    ensures SameIndex(st, Unwire(Leave(st, sid), sid, close))
  {
    LeaveShape(st, sid);
    UnwireShape(Leave(st, sid), sid, close);
  }

  lemma TouchProven(st: State, sid: Sid, now: int)
    requires Proven(st, now) && sid in st.sess
    ensures Proven(Touch(st, sid, now), now) && Touch(st, sid, now).log == st.log
  {
    SameIndexProven(st, Touch(st, sid, now), now);
  }

  lemma TerminateProven(st: State, sid: Sid, close: bool, preserve: bool, now: int)
    requires Sound(st) && Proven(st, now) && sid in st.sess
    ensures var r := Terminate(st, sid, close, preserve, now);
            && Proven(r, now) && Retains(st, r)
            && (!preserve && sid in st.nodes ==>
                  && st.sess[sid].proof in r.log.retired
                  && r.log.retired[st.sess[sid].proof] == Tomb(st.sess[sid].nodeId, now + PROOF_TOMBSTONE_TTL_MS))
  {
    if !Gone(st, sid) {
      assert sid in st.nodes;
      CutSameIndex(st, sid, close);
      var cut := Unwire(Leave(st, sid), sid, close);
      SameIndexProven(st, cut, now);
      EndProven(cut, sid, preserve, now);
    }
  }

  lemma EndProven(st: State, sid: Sid, preserve: bool, now: int)
    requires Proven(st, now) && sid in st.nodes
    ensures var r := Touch(if preserve then st else Evict(st, sid, now), sid, now);
            && Proven(r, now) && Retains(st, r)
            && (!preserve ==>
                  && st.sess[sid].proof in r.log.retired
                  && r.log.retired[st.sess[sid].proof] == Tomb(st.sess[sid].nodeId, now + PROOF_TOMBSTONE_TTL_MS))
  {
    if preserve {
      TouchProven(st, sid, now);
    } else {
      UnindexProven(st, sid, now);
      TouchProven(Evict(st, sid, now), sid, now);
    }
  }

  lemma {:induction false} TerminateAllProven(st: State, sids: seq<Sid>, now: int)
    requires Sound(st) && Proven(st, now)
    ensures Proven(TerminateAll(st, sids, now), now) && Retains(st, TerminateAll(st, sids, now))
  {
    if sids != [] {
      var init, last := sids[..|sids| - 1], sids[|sids| - 1];
      TerminateAllProven(st, init, now);
      TerminateAllSound(st, init, now);
      var before := TerminateAll(st, init, now);
      if last in before.sess {
        TerminateProven(before, last, true, false, now);
      }
    }
  }

  // ----- every event -----

  /** Suspended registrations are for real nodes. */
  ghost predicate AsksValid(tasks: map<nat, Task>) {
    forall id :: id in tasks ==> tasks[id].ask.nodeId > 0
  }

  ghost predicate Good(s: Sys, now: int) {
    Sound(s.st) && Proven(s.st, now) && AsksValid(s.tasks)
  }

  lemma CommitProven(cfg: Config, st: State, ask: Ask, hash: string, scrypt: bool, now: int)
    requires Proven(st, now) && Numbered(st) && ask.nodeId > 0
    ensures Proven(Commit(cfg, st, ask, hash, scrypt, now), now) && Retains(st, Commit(cfg, st, ask, hash, scrypt, now))
  {
    if Commits(cfg, st, ask, hash, now) {
      var taken := Consume(st, ask);
      SameIndexProven(st, taken, now);
      InsertProven(taken, NewSession(cfg, st, ask.nodeId, hash, scrypt, ask.at, ask.ip), now);
    }
  }

  lemma RenewProven(cfg: Config, st: State, sid: Sid, now: int)
    requires Proven(st, now) && sid in st.nodes
    ensures var r := Renew(cfg, st, sid, now);
            && Proven(r, now) && Retains(st, r)
            && st.sess[sid].proof in r.log.retired
            && r.log.retired[st.sess[sid].proof] == Tomb(st.sess[sid].nodeId, now + PROOF_TOMBSTONE_TTL_MS)
  {
    RotateProven(st, sid, now);
    SameIndexProven(RotateProof(st, sid, now), Renew(cfg, st, sid, now), now);
  }

  /** Consuming a proof retires it, charged to the node it belonged to. */
  lemma ReRegisterProven(cfg: Config, st: State, proof: Proof, ip: string, admitted: bool, now: int)
    requires Sound(st) && Proven(st, now)
    ensures var r := OnReRegister(cfg, st, proof, ip, admitted, now);
            && Proven(r, now) && Retains(st, r)
            && (Resolve(st, proof, now).Resolved? && r != st ==>
                  && proof in r.log.retired
                  && r.log.retired[proof]
                     == Tomb(st.sess[Resolve(st, proof, now).sid].nodeId, now + PROOF_TOMBSTONE_TTL_MS))
  {
    var found := Resolve(st, proof, now);
    if found.Resolved? {
      var s := st.sess[found.sid];
      var freed := Terminate(st, found.sid, true, false, now);
      TerminateProven(st, found.sid, true, false, now);
      TerminateSound(st, found.sid, now);
      InsertProven(freed, NewSession(cfg, freed, s.nodeId, s.hash, s.scrypt, now, ip), now);
    } else {
      AfterResolveProven(st, proof, now);
    }
  }

  lemma CloseProven(st: State, ws: Ws, now: int)
    requires Sound(st) && Proven(st, now)
    ensures Proven(CloseEvent(st, ws, now), now) && Retains(st, CloseEvent(st, ws, now))
  {
    var closed := StopListening(st, ws);
    StopWired(st, ws);
    SameIndexProven(st, closed, now);
    if ws in st.bound && st.sess[st.bound[ws]].socket == Wired(ws) {
      TerminateProven(closed, st.bound[ws], false, true, now);
      SameIndexProven(Terminate(closed, st.bound[ws], false, true, now), CloseEvent(st, ws, now), now);
    } else {
      SameIndexProven(closed, CloseEvent(st, ws, now), now);
    }
  }

  lemma SocketProven(cfg: Config, s: Sys, e: Event, now: int)
    requires Good(s, now) && Enabled(s, e, now) && OfSocket(e)
    ensures Proven(Apply(cfg, s, e, now).st, now) && Retains(s.st, Apply(cfg, s, e, now).st)
  {
    match e
    case Closed(ws) => CloseProven(s.st, ws, now);
    case Connect(_) => SameIndexProven(s.st, Apply(cfg, s, e, now).st, now);
    case AuthFrame(ws, sid, ip) =>
      AuthOne(s.st, ws, sid, ip, now);
      OneRecordProven(s.st, Auth(s.st, ws, sid, ip, now), sid, now);
    case ServerCloses(ws) => SameIndexProven(s.st, StopListening(s.st, ws), now);
    case JoinFrame(_, _) => FrameProven(s.st, e, now);
    case LeaveFrame(_) => FrameProven(s.st, e, now);
    case BlockFrame(_, _) => FrameProven(s.st, e, now);
  }

  lemma FrameProven(st: State, e: Event, now: int)
    requires Proven(st, now)
    requires (e.JoinFrame? || e.LeaveFrame? || e.BlockFrame?) && e.ws in st.bound && st.bound[e.ws] in st.sess
    ensures Proven(OnFrame(st, e, now), now) && Retains(st, OnFrame(st, e, now))
  {
    FrameOne(st, e, now);
    OneRecordProven(st, OnFrame(st, e, now), st.bound[e.ws], now);
  }

  lemma VerifiedProven(cfg: Config, s: Sys, id: nat, task: Task, ok: bool, now: int)
    requires Proven(s.st, now) && Sound(s.st) && task.Verifying?
    requires task.donor in s.st.sess && task.verifier in s.st.sess
    requires task.ask.nodeId > 0
    ensures Proven(OnVerified(cfg, s, id, task, ok, now).st, now)
            && Retains(s.st, OnVerified(cfg, s, id, task, ok, now).st)
  {
    var st := Upgrade(s.st, task.verifier);
    UpgradeOne(s.st, task.verifier);
    OneRecordProven(s.st, st, task.verifier, now);
    EditSound(s.st, task.verifier, s.st.sess[task.verifier].(scrypt := true));
    CommitProven(cfg, st, task.ask, st.sess[task.donor].hash, true, now);
  }

  lemma RequestProven(cfg: Config, s: Sys, e: Event, now: int)
    requires Good(s, now) && Enabled(s, e, now) && OfRequest(e)
    ensures Proven(Apply(cfg, s, e, now).st, now) && Retains(s.st, Apply(cfg, s, e, now).st)
  {
    match e
    case Verified(id, ok) => VerifiedProven(cfg, s, id, s.tasks[id], ok, now);
    case Hashed(id) => CommitProven(cfg, s.st, s.tasks[id].ask, s.tasks[id].hash, true, now);
    case ReRegister(proof, ip, admitted) => ReRegisterProven(cfg, s.st, proof, ip, admitted, now);
    case SessionRenew(sid) => RenewProven(cfg, s.st, sid, now);
    case Register(_, _, _, _, _, _) =>
    case HashRefused(_) =>
  }

  lemma TickProven(cfg: Config, st: State, order: seq<Sid>, now: int)
    requires Sound(st) && Proven(st, now)
    ensures Proven(OnTick(cfg, st, order, now), now) && Retains(st, OnTick(cfg, st, order, now))
  {
    var purged := TerminateAll(st, Purged(cfg, st, order, now), now);
    TerminateAllProven(st, Purged(cfg, st, order, now), now);
    CollectProven(purged, now);
    SameIndexProven(CollectTombs(purged, now), OnTick(cfg, st, order, now), now);
  }

  lemma QrProven(cfg: Config, st: State, sid: Sid, token: nat, hash: string, now: int)
    requires Proven(st, now)
    ensures sid in st.sess ==> Proven(OnQrToken(cfg, st, sid, now), now) && Retains(st, OnQrToken(cfg, st, sid, now))
    ensures Proven(OnQrRedeem(cfg, st, token, hash, now), now) && Retains(st, OnQrRedeem(cfg, st, token, hash, now))
  {
    if sid in st.sess {
      QrTokenIndex(cfg, st, sid, now);
      SameIndexProven(st, OnQrToken(cfg, st, sid, now), now);
    }
    QrRedeemIndex(cfg, st, token, hash, now);
    SameIndexProven(st, OnQrRedeem(cfg, st, token, hash, now), now);
  }

  lemma QrTokenIndex(cfg: Config, st: State, sid: Sid, now: int)
    requires sid in st.sess
    ensures SameIndex(st, OnQrToken(cfg, st, sid, now))
  {
  }

  lemma QrRedeemIndex(cfg: Config, st: State, token: nat, hash: string, now: int)
    ensures SameIndex(st, OnQrRedeem(cfg, st, token, hash, now))
  {
    QrRedeemShape(cfg, st, token, hash, now);
  }

  lemma OtherProven(cfg: Config, s: Sys, e: Event, now: int)
    requires Sound(s.st) && Proven(s.st, now) && Enabled(s, e, now) && !OfSocket(e) && !OfRequest(e)
    ensures Proven(Apply(cfg, s, e, now).st, now) && Retains(s.st, Apply(cfg, s, e, now).st)
  {
    match e
    case Release(sid) => TerminateProven(s.st, sid, true, false, now);
    case ReleaseByIp(sids) => TerminateAllProven(s.st, sids, now);
    case QrToken(sid) => QrProven(cfg, s.st, sid, 0, "", now);
    case QrRedeem(token, hash) => QrProven(cfg, s.st, s.st.next, token, hash, now);
    case Tick(order) => TickProven(cfg, s.st, order, now);
  }

  lemma StepAsks(cfg: Config, s: Sys, e: Event, now: int)
    requires AsksValid(s.tasks)
    ensures AsksValid(Step(cfg, s, e, now).tasks)
  {
  }

  lemma StepGood(cfg: Config, s: Sys, e: Event, now: int)
    requires Good(s, now)
    ensures Good(Step(cfg, s, e, now), now) && Retains(s.st, Step(cfg, s, e, now).st)
  {
    StepSound(cfg, s, e, now);
    StepAsks(cfg, s, e, now);
    if Enabled(s, e, now) {
      if OfSocket(e) {
        SocketProven(cfg, s, e, now);
      } else if OfRequest(e) {
        RequestProven(cfg, s, e, now);
      } else {
        OtherProven(cfg, s, e, now);
      }
    }
  }

  // ----- every run -----

  /** The clock never runs backwards. */
  predicate Timely(t: Trace) {
    t.After? ==> Timely(t.before) && (t.before.After? ==> t.before.at <= t.at)
  }

  predicate NotAfter(t: Trace, now: int) {
    t.After? ==> t.at <= now
  }

  lemma {:induction false} EveryRunIsGood(cfg: Config, t: Trace, now: int)
    requires Timely(t) && NotAfter(t, now)
    ensures Good(Run(cfg, t), now)
  {
    if t.After? {
      EveryRunIsGood(cfg, t.before, t.at);
      StepGood(cfg, Run(cfg, t.before), t.event, t.at);
      ChargedLater(Run(cfg, t).st, t.at, now);
    }
  }

  predicate Prefix(t: Trace, u: Trace) {
    t == u || (u.After? && Prefix(t, u.before))
  }

  lemma {:induction false} RetiredStays(cfg: Config, t: Trace, u: Trace, now: int)
    requires Timely(u) && NotAfter(u, now) && Prefix(t, u)
    ensures Retains(Run(cfg, t).st, Run(cfg, u).st)
  {
    if t != u {
      RetiredStays(cfg, t, u.before, u.at);
      EveryRunIsGood(cfg, u.before, u.at);
      StepGood(cfg, Run(cfg, u.before), u.event, u.at);
    }
  }

  /** The index over every run: a proof resolves exactly to the live unexpired session whose current proof
  it is, and no proof is both indexed and tombstoned. */
  lemma IndexIsExact(cfg: Config, t: Trace, proof: Proof, sid: Sid, now: int)
    requires Timely(t) && NotAfter(t, now)
    ensures var st := Run(cfg, t).st;
            && (sid in st.nodes ==> sid in st.sess)
            && (proof in st.proofs && st.proofs[proof] == sid <==> sid in st.nodes && st.sess[sid].proof == proof)
            && !(proof in st.proofs && proof in st.tombs)
            && (Resolve(st, proof, now) == Resolved(sid) <==>
                  sid in st.nodes && st.sess[sid].proof == proof && !Expired(st.sess[sid], now))
  {
    EveryRunIsGood(cfg, t, now);
    ResolvesIffCurrent(Run(cfg, t).st, proof, now, sid);
  }

  /** A proof that was ever retired, by re-registering, renewing, releasing or purging, never authenticates
  again in any continuation, and is charged to its owner until its hour is over. */
  lemma RetiredForGood(cfg: Config, t: Trace, u: Trace, proof: Proof, now: int)
    requires Timely(u) && NotAfter(u, now) && Prefix(t, u) && proof in Run(cfg, t).st.log.retired
    ensures var owner := Run(cfg, t).st.log.retired[proof];
            && !Resolve(Run(cfg, u).st, proof, now).Resolved?
            && (now <= owner.until ==> Resolve(Run(cfg, u).st, proof, now) == Refused(owner.nodeId))
  {
    RetiredStays(cfg, t, u, now);
    EveryRunIsGood(cfg, u, now);
    RetiredIsCharged(Run(cfg, u).st, proof, now);
  }
}
