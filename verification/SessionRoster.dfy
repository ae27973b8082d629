/** Rosters: what a member is told about its channel adds up to whom it may talk to. */
module SessionRoster {

  import opened SessionState
  import opened SessionMachine
  import opened SessionChannels

  /** A client's view: the peers announced to it and not since gone, and which of them it is to call. */
  function Roster(frames: seq<Frame>): map<Sid, bool> {
    if frames == [] then map[]
    else
      var before := Roster(frames[..|frames| - 1]);
      match frames[|frames| - 1]
      case PeerJoined(p, initiate) => before[p := initiate]
      case PeerLeft(p) => before - {p}
  }

  lemma RosterNext(frames: seq<Frame>, f: Frame)
    ensures f.PeerJoined? ==> Roster(frames + [f]) == Roster(frames)[f.peer := f.initiate]
    ensures f.PeerLeft? ==> Roster(frames + [f]) == Roster(frames) - {f.peer}
  {
    assert (frames + [f])[..|frames|] == frames;
  }

  /** The channel a session sits in. */
  function Company(st: State, m: Sid): set<Sid>
    requires m in st.sess
  {
    if st.sess[m].place.Inside? then Members(st, st.sess[m].place.channel) - {m} else {}
  }

  predicate Known(st: State, m: Sid, p: Sid) {
    (m, p) in st.log.met && p in st.sess && m !in st.sess[p].blocked && m in st.log.stamp && p in st.log.stamp
  }

  /** Whom a member should see: the co-members it was mutually unblocked with when the later of the two
  joined and that have not blocked it since; it calls those that were there first. */
  function Expected(st: State, m: Sid): map<Sid, bool>
    requires m in st.sess
  {
    map p | p in Company(st, m) && Known(st, m, p) :: st.log.stamp[m] > st.log.stamp[p]
  }

  ghost predicate RosterRight(st: State, m: Sid)
    requires m in st.sess
  {
    st.sess[m].place.Inside? && m !in st.log.gap ==>
      Listening(st, m) && m in st.log.inbox && Roster(st.log.inbox[m]) == Expected(st, m)
  }

  /** Everyone seated has a stamp, each handed out once. */
  ghost predicate Stamped(st: State) {
    && (forall m :: m in st.log.stamp ==> st.log.stamp[m] < st.log.clock)
    && (forall m, p :: m in st.log.stamp && p in st.log.stamp && st.log.stamp[m] == st.log.stamp[p] ==> m == p)
    && (forall m :: m in st.sess && st.sess[m].place.Inside? ==> m in st.log.stamp)
  }

  ghost predicate Rostered(st: State) {
    (forall m :: m in st.sess ==> RosterRight(st, m) && m in st.log.inbox) && Stamped(st)
  }

  // ----- changes nobody hears of -----

  ghost predicate Silent(a: State, b: State) {
    && a.sess.Keys == b.sess.Keys && a.channels == b.channels
    && (forall m :: m in a.sess ==> b.sess[m].place == a.sess[m].place && b.sess[m].blocked == a.sess[m].blocked)
    && b.log.inbox == a.log.inbox && b.log.met == a.log.met && b.log.stamp == a.log.stamp && b.log.clock == a.log.clock
    && a.log.gap <= b.log.gap
    && (forall m :: m in a.sess && a.sess[m].place.Inside? && Listening(a, m) && m !in b.log.gap ==> Listening(b, m))
  }

  lemma SilentRostered(a: State, b: State)
    requires Rostered(a) && Silent(a, b)
    ensures Rostered(b)
  {
    forall m | m in b.sess ensures RosterRight(b, m) && m in b.log.inbox {
      assert RosterRight(a, m);
      assert Expected(b, m) == Expected(a, m);
    }
  }

  // ----- leaving -----

  lemma LeaveInbox(st: State, sid: Sid, c: Channel, m: Sid)
    requires sid in st.sess && st.sess[sid].place == Inside(c) && m in st.log.inbox
    ensures var r := Leave(st, sid);
            r.log == st.log.(inbox := r.log.inbox) && m in r.log.inbox
            && r.log.inbox[m] == if m in Members(st, c) - {sid} && Listening(st, m)
               then st.log.inbox[m] + [PeerLeft(sid)] else st.log.inbox[m]
  {
  }

  lemma LeaveCompany(st: State, sid: Sid, m: Sid)
    requires SeatedIn(st) && sid in st.sess && m in st.sess && m != sid && st.sess[sid].place.Inside?
    ensures Company(Leave(st, sid), m) == if m in Company(st, sid) then Company(st, m) - {sid} else Company(st, m)
    ensures m !in Company(st, sid) ==> sid !in Company(st, m)
  {
    LeaveShape(st, sid);
    var c := st.sess[sid].place.channel;
    var r := Leave(st, sid);
    assert r.channels == Vacate(st.channels, c, sid) && r.sess[m].place == st.sess[m].place;
    if m in Company(st, sid) {
      assert st.sess[m].place == Inside(c);
    } else if st.sess[m].place.Inside? {
      assert st.sess[m].place.channel != c;
    }
  }

  lemma LeaveExpected(st: State, sid: Sid, m: Sid)
    requires SeatedIn(st) && sid in st.sess && m in st.sess && m != sid && st.sess[sid].place.Inside?
    ensures Expected(Leave(st, sid), m) == if m in Company(st, sid) then Expected(st, m) - {sid} else Expected(st, m)
  {
    LeaveShape(st, sid);
    LeaveCompany(st, sid, m);
    var r := Leave(st, sid);
    assert forall p :: Known(r, m, p) <==> Known(st, m, p);
  }

  lemma LeaveRostered(st: State, sid: Sid)
    requires SeatedIn(st) && Rostered(st) && sid in st.sess
    ensures Rostered(Leave(st, sid))
  {
    LeaveShape(st, sid);
    var r := Leave(st, sid);
    forall m | m in r.sess ensures RosterRight(r, m) && m in r.log.inbox {
      assert RosterRight(st, m);
      if m != sid && st.sess[sid].place.Inside? {
        var c := st.sess[sid].place.channel;
        LeaveInbox(st, sid, c, m);
        LeaveExpected(st, sid, m);
        RosterNext(st.log.inbox[m], PeerLeft(sid));
      }
    }
  }

  // ----- joining -----

  predicate Meets(st: State, sid: Sid, p: Sid) {
    p in st.nodes && MutuallyUnblocked(st, sid, p)
  }

  lemma SendInbox(st: State, whom: Sid, f: Frame, m: Sid)
    requires m in st.log.inbox
    ensures var r := Send(st, {whom}, f);
            && r == st.(log := st.log.(inbox := r.log.inbox)) && m in r.log.inbox
            && r.log.inbox[m] == if m == whom && Listening(st, m) then st.log.inbox[m] + [f] else st.log.inbox[m]
  {
  }

  lemma MeetOneInbox(st: State, ws: Ws, sid: Sid, peer: Sid, m: Sid)
    requires m in st.log.inbox && peer != sid
    ensures var r := MeetOne(st, ws, sid, peer);
            && m in r.log.inbox
            && (m != sid ==> r.log.inbox[m] == if m == peer && Meets(st, sid, peer) && Listening(st, peer)
                                               then st.log.inbox[m] + [PeerJoined(sid, false)] else st.log.inbox[m])
            && (m == sid ==> r.log.inbox[m] == if Meets(st, sid, peer) && ws in st.open
                                               then st.log.inbox[m] + [PeerJoined(peer, true)] else st.log.inbox[m])
  {
    if Meets(st, sid, peer) {
      SendInbox(st, peer, PeerJoined(sid, false), m);
    }
  }

  lemma SameListening(st: State, inbox: map<Sid, seq<Frame>>, sid: Sid, p: Sid)
    ensures var r := st.(log := st.log.(inbox := inbox));
            (Listening(r, p) <==> Listening(st, p)) && (Meets(r, sid, p) <==> Meets(st, sid, p))
  {
  }

  /** What the announcements add to a member's inbox. */
  lemma {:induction false} MeetAllMember(st: State, ws: Ws, sid: Sid, peers: seq<Sid>, m: Sid)
    requires m in st.log.inbox && m != sid && sid !in peers
             && (forall i, j :: 0 <= i < j < |peers| ==> peers[i] != peers[j])
    ensures var r := MeetAll(st, ws, sid, peers);
            && m in r.log.inbox
            && r.log.inbox[m] == if m in peers && Meets(st, sid, m) && Listening(st, m)
                                 then st.log.inbox[m] + [PeerJoined(sid, false)] else st.log.inbox[m]
  {
    if peers != [] {
      var init, last := peers[..|peers| - 1], peers[|peers| - 1];
      MeetAllMember(st, ws, sid, init, m);
      MeetAllLeaves(st, ws, sid, init);
      var before := MeetAll(st, ws, sid, init);
      MeetOneInbox(before, ws, sid, last, m);
      SameListening(st, before.log.inbox, sid, last);
      assert peers == init + [last];
    }
  }

  lemma MeetNext(st: State, inbox: map<Sid, seq<Frame>>, ws: Ws, sid: Sid, last: Sid)
    requires sid in inbox && last != sid && ws in st.open
    ensures var before := st.(log := st.log.(inbox := inbox));
            var r := MeetOne(before, ws, sid, last);
            && sid in r.log.inbox
            && Roster(r.log.inbox[sid]) == if Meets(st, sid, last) then Roster(inbox[sid])[last := true]
               else Roster(inbox[sid])
  {
    var before := st.(log := st.log.(inbox := inbox));
    MeetOneInbox(before, ws, sid, last, sid);
    SameListening(st, inbox, sid, last);
    RosterNext(inbox[sid], PeerJoined(last, true));
  }

  function Met(st: State, sid: Sid, peers: seq<Sid>): map<Sid, bool> {
    map p | p in peers && Meets(st, sid, p) :: true
  }

  lemma MetNext(st: State, sid: Sid, peers: seq<Sid>, last: Sid)
    ensures Met(st, sid, peers + [last]) == if Meets(st, sid, last) then Met(st, sid, peers)[last := true]
              else Met(st, sid, peers)
  {
  }

  /** And to the newcomer's: every member it meets, for it to call. */
  lemma {:induction false} MeetAllNewcomer(st: State, ws: Ws, sid: Sid, peers: seq<Sid>)
    requires sid in st.log.inbox && st.log.inbox[sid] == [] && sid !in peers && ws in st.open
    ensures var r := MeetAll(st, ws, sid, peers); sid in r.log.inbox && Roster(r.log.inbox[sid]) == Met(st, sid, peers)
  {
    if peers != [] {
      var init, last := peers[..|peers| - 1], peers[|peers| - 1];
      MeetAllNewcomer(st, ws, sid, init);
      MeetAllLeaves(st, ws, sid, init);
      MeetNext(st, MeetAll(st, ws, sid, init).log.inbox, ws, sid, last);
      assert peers == init + [last];
      MetNext(st, sid, init, last);
    }
  }

  /** Everything about a join once the newcomer has left wherever it was. */
  ghost predicate Joins(st: State, ws: Ws, sid: Sid, c: Channel, peers: seq<Sid>, r: State) {
    && SeatedIn(st) && sid in st.nodes && sid in st.sess && st.sess[sid].place.Outside?
    && (ws in st.open ==> st.sess[sid].socket == Wired(ws))
    && Lists(peers, Members(st, c) - {sid})
    && r == Seat(MeetAll(Enter(st, ws, sid, Members(st, c) - {sid}), ws, sid, peers), sid, c)
  }

  lemma JoinsShape(st: State, ws: Ws, sid: Sid, c: Channel, peers: seq<Sid>, r: State)
    requires Joins(st, ws, sid, c, peers, r)
    ensures r.sess == st.sess[sid := st.sess[sid].(place := Inside(c))] && r.nodes == st.nodes && r.open == st.open
    ensures r.channels == st.channels[c := Members(st, c) + {sid}]
    ensures r.log ==
            st.log.(inbox := r.log.inbox, met := Forget(st.log.met, sid) + Pairs(st, sid, Members(st, c) - {sid}),
                    gap := if ws in st.open then st.log.gap - {sid} else st.log.gap + {sid},
                    stamp := st.log.stamp[sid := st.log.clock], clock := st.log.clock + 1)
    ensures sid !in Members(st, c)
  {
    var entered := Enter(st, ws, sid, Members(st, c) - {sid});
    MeetAllLeaves(entered, ws, sid, peers);
  }

  /** A newcomer and a member have met exactly if neither had blocked the other when it joined. */
  lemma MetIffUnblocked(st: State, ws: Ws, sid: Sid, members: set<Sid>, p: Sid)
    requires p != sid
    ensures (sid, p) in Enter(st, ws, sid, members).log.met <==> p in members && MutuallyUnblocked(st, sid, p)
    ensures (p, sid) in Enter(st, ws, sid, members).log.met <==> p in members && MutuallyUnblocked(st, sid, p)
  {
  }

  lemma JoinsCompany(st: State, ws: Ws, sid: Sid, c: Channel, peers: seq<Sid>, r: State, m: Sid)
    requires Joins(st, ws, sid, c, peers, r) && m in st.sess && m != sid && st.sess[m].place.Inside?
    ensures m in r.sess && sid !in Company(st, m)
    ensures Company(r, m) == if m in Members(st, c) then Company(st, m) + {sid} else Company(st, m)
  {
    JoinsShape(st, ws, sid, c, peers, r);
  }

  lemma JoinsKnown(st: State, ws: Ws, sid: Sid, c: Channel, peers: seq<Sid>, r: State, m: Sid)
    requires Joins(st, ws, sid, c, peers, r) && Stamped(st) && m in st.sess && m != sid && st.sess[m].place.Inside?
    ensures forall p :: p != sid ==> (Known(r, m, p) <==> Known(st, m, p))
    ensures m in Members(st, c) ==> (Known(r, m, sid) <==> Meets(st, sid, m))
  {
    JoinsShape(st, ws, sid, c, peers, r);
    MetIffUnblocked(st, ws, sid, Members(st, c) - {sid}, m);
  }

  lemma JoinsExpectedOther(st: State, ws: Ws, sid: Sid, c: Channel, peers: seq<Sid>, r: State, m: Sid)
    requires Joins(st, ws, sid, c, peers, r) && Stamped(st) && m in st.sess && m != sid && st.sess[m].place.Inside?
    ensures m in r.sess
    ensures Expected(r, m) == if m in Members(st, c) && Meets(st, sid, m) then Expected(st, m)[sid := false]
              else Expected(st, m)
  {
    JoinsCompany(st, ws, sid, c, peers, r, m);
    JoinsKnown(st, ws, sid, c, peers, r, m);
    JoinsStamps(st, ws, sid, c, peers, r);
    ExpectedGrows(st, r, m, sid, m in Members(st, c), Meets(st, sid, m));
  }

  lemma ExpectedGrows(st: State, r: State, m: Sid, sid: Sid, together: bool, meets: bool)
    requires m in st.sess && m in r.sess && m != sid && sid !in Company(st, m) && Stamped(st)
    requires Company(r, m) == if together then Company(st, m) + {sid} else Company(st, m)
    requires (forall p :: p != sid ==> (Known(r, m, p) <==> Known(st, m, p)))
             && (together ==> (Known(r, m, sid) <==> meets))
    requires r.log.stamp == st.log.stamp[sid := st.log.clock]
    ensures Expected(r, m) == if together && meets then Expected(st, m)[sid := false] else Expected(st, m)
  {
  }

  lemma JoinsStamps(st: State, ws: Ws, sid: Sid, c: Channel, peers: seq<Sid>, r: State)
    requires Joins(st, ws, sid, c, peers, r)
    ensures r.log.stamp == st.log.stamp[sid := st.log.clock]
  {
    JoinsShape(st, ws, sid, c, peers, r);
  }

  lemma JoinsMembers(st: State, ws: Ws, sid: Sid, c: Channel, peers: seq<Sid>, r: State, p: Sid)
    requires Joins(st, ws, sid, c, peers, r) && Stamped(st) && p in peers
    ensures (Known(r, sid, p) <==> Meets(st, sid, p)) && p in r.log.stamp && sid in r.log.stamp
            && r.log.stamp[sid] > r.log.stamp[p]
  {
    JoinsShape(st, ws, sid, c, peers, r);
    MetIffUnblocked(st, ws, sid, Members(st, c) - {sid}, p);
    assert st.sess[p].place == Inside(c);
  }

  lemma JoinsExpectedSelf(st: State, ws: Ws, sid: Sid, c: Channel, peers: seq<Sid>, r: State)
    requires Joins(st, ws, sid, c, peers, r) && Stamped(st)
    ensures sid in r.sess
    ensures Expected(r, sid) == Met(st, sid, peers)
  {
    JoinsShape(st, ws, sid, c, peers, r);
    assert Company(r, sid) == Members(st, c) - {sid};
    forall p | p in peers
      ensures (Known(r, sid, p) <==> Meets(st, sid, p)) && p in r.log.stamp && sid in r.log.stamp
              && r.log.stamp[sid] > r.log.stamp[p]
    {
      JoinsMembers(st, ws, sid, c, peers, r, p);
    }
    ExpectedOfNewcomer(st, sid, peers, r, Members(st, c) - {sid});
  }

  lemma ExpectedOfNewcomer(st: State, sid: Sid, peers: seq<Sid>, r: State, others: set<Sid>)
    requires sid in r.sess && Company(r, sid) == others && (forall p :: p in peers <==> p in others)
    requires forall p :: p in peers ==> (Known(r, sid, p) <==> Meets(st, sid, p))
    requires forall p :: p in peers ==> p in r.log.stamp && sid in r.log.stamp && r.log.stamp[sid] > r.log.stamp[p]
    ensures Expected(r, sid) == Met(st, sid, peers)
  {
  }

  lemma JoinsOther(st: State, ws: Ws, sid: Sid, c: Channel, peers: seq<Sid>, r: State, m: Sid)
    requires Joins(st, ws, sid, c, peers, r) && Rostered(st) && m in st.sess && m != sid
    ensures m in r.sess && RosterRight(r, m) && m in r.log.inbox
  {
    var entered := Enter(st, ws, sid, Members(st, c) - {sid});
    JoinsShape(st, ws, sid, c, peers, r);
    MeetAllMember(entered, ws, sid, peers, m);
    JoinsInbox(st, ws, sid, c, peers, r, m);
    assert RosterRight(st, m);
    if st.sess[m].place.Inside? && m !in st.log.gap {
      JoinsExpectedOther(st, ws, sid, c, peers, r, m);
      RosterNext(st.log.inbox[m], PeerJoined(sid, false));
    }
  }

  lemma JoinsInbox(st: State, ws: Ws, sid: Sid, c: Channel, peers: seq<Sid>, r: State, m: Sid)
    requires Joins(st, ws, sid, c, peers, r) && m in st.log.inbox && m != sid
    ensures m in r.log.inbox && (Listening(r, m) <==> Listening(st, m))
    ensures r.log.inbox[m] == if m in peers && Meets(st, sid, m) && Listening(st, m)
                              then st.log.inbox[m] + [PeerJoined(sid, false)] else st.log.inbox[m]
  {
    JoinsShape(st, ws, sid, c, peers, r);
    MeetAllMember(Enter(st, ws, sid, Members(st, c) - {sid}), ws, sid, peers, m);
  }

  lemma JoinsSelf(st: State, ws: Ws, sid: Sid, c: Channel, peers: seq<Sid>, r: State)
    requires Joins(st, ws, sid, c, peers, r) && Rostered(st)
    ensures sid in r.sess && RosterRight(r, sid) && sid in r.log.inbox
  {
    JoinsShape(st, ws, sid, c, peers, r);
    MeetAllLeaves(Enter(st, ws, sid, Members(st, c) - {sid}), ws, sid, peers);
    if ws in st.open {
      JoinsHeard(st, ws, sid, c, peers, r);
      JoinsExpectedSelf(st, ws, sid, c, peers, r);
    }
  }

  // On an open socket the newcomer hears of everyone it meets.
  lemma JoinsHeard(st: State, ws: Ws, sid: Sid, c: Channel, peers: seq<Sid>, r: State)
    requires Joins(st, ws, sid, c, peers, r) && ws in st.open
    ensures Listening(r, sid) && sid in r.log.inbox && Roster(r.log.inbox[sid]) == Met(st, sid, peers)
  {
    var entered := Enter(st, ws, sid, Members(st, c) - {sid});
    JoinsShape(st, ws, sid, c, peers, r);
    MeetAllNewcomer(entered, ws, sid, peers);
    assert r.log.inbox == MeetAll(entered, ws, sid, peers).log.inbox;
    assert Met(entered, sid, peers) == Met(st, sid, peers);
  }

  lemma JoinsRostered(st: State, ws: Ws, sid: Sid, c: Channel, peers: seq<Sid>, r: State)
    requires Joins(st, ws, sid, c, peers, r) && Rostered(st)
    ensures Rostered(r)
  {
    JoinsShape(st, ws, sid, c, peers, r);
    forall m | m in r.sess ensures RosterRight(r, m) && m in r.log.inbox {
      if m == sid {
        JoinsSelf(st, ws, sid, c, peers, r);
      } else {
        JoinsOther(st, ws, sid, c, peers, r, m);
      }
    }
  }

  lemma JoinRostered(st: State, ws: Ws, sid: Sid, peers: seq<Sid>)
    requires SeatedIn(st) && Rostered(st) && sid in st.nodes && (ws in st.open ==> st.sess[sid].socket == Wired(ws))
    requires Lists(peers, Members(st, Home(st.sess[sid])) - {sid})
    ensures Rostered(Join(st, ws, sid, peers))
  {
    var c := Home(st.sess[sid]);
    if st.sess[sid].place != Inside(c) {
      LeaveSeated(st, sid);
      LeaveRostered(st, sid);
      LeaveShape(st, sid);
      var left := Leave(st, sid);
      LeaveOthers(st, sid, c);
      JoinsRostered(left, ws, sid, c, peers, Join(st, ws, sid, peers));
    }
  }

  // Leaving one channel does not change who sits in another.
  lemma LeaveOthers(st: State, sid: Sid, c: Channel)
    requires SeatedIn(st) && sid in st.sess && st.sess[sid].place != Inside(c)
    ensures Members(Leave(st, sid), c) - {sid} == Members(st, c) - {sid}
  {
    LeaveShape(st, sid);
  }

  // ----- blocking -----

  lemma BlockRight(st: State, sid: Sid, target: Sid, m: Sid)
    requires sid in st.sess && m in st.sess && m in st.log.inbox && RosterRight(st, m)
    ensures var put := st.(sess := st.sess[sid := st.sess[sid].(blocked := st.sess[sid].blocked + {target})]);
            var r := Send(put, {target}, PeerLeft(sid));
            m in r.sess && RosterRight(r, m) && m in r.log.inbox
  {
    var put := st.(sess := st.sess[sid := st.sess[sid].(blocked := st.sess[sid].blocked + {target})]);
    SendInbox(put, target, PeerLeft(sid), m);
    RosterNext(st.log.inbox[m], PeerLeft(sid));
    BlockExpected(st, sid, target, m);
    assert Expected(Send(put, {target}, PeerLeft(sid)), m) == Expected(put, m);
  }

  lemma BlockRostered(st: State, sid: Sid, target: Sid)
    requires Rostered(st) && sid in st.sess
    ensures Rostered(Block(st, sid, target))
  {
    var s := st.sess[sid];
    var r := Block(st, sid, target);
    StampedAfterBlock(st, sid, target);
    if |s.blocked| < MAX_BLOCKED_IDS || target in s.blocked {
      forall m | m in r.sess ensures RosterRight(r, m) && m in r.log.inbox {
        BlockRight(st, sid, target, m);
      }
    }
  }

  lemma BlockExpected(st: State, sid: Sid, target: Sid, m: Sid)
    requires sid in st.sess && m in st.sess
    ensures var put := st.(sess := st.sess[sid := st.sess[sid].(blocked := st.sess[sid].blocked + {target})]);
            && m in put.sess && (Listening(put, m) <==> Listening(st, m))
            && Expected(put, m) == if m == target then Expected(st, m) - {sid} else Expected(st, m)
  {
    var put := st.(sess := st.sess[sid := st.sess[sid].(blocked := st.sess[sid].blocked + {target})]);
    assert Company(put, m) == Company(st, m);
    assert forall p :: Known(put, m, p) <==> Known(st, m, p) && !(p == sid && m == target);
  }

  lemma StampedAfterBlock(st: State, sid: Sid, target: Sid)
    requires Stamped(st) && sid in st.sess
    ensures Stamped(Block(st, sid, target))
  {
  }

  // ----- sockets and the session map -----

  /** Nobody else's socket is this session's. */
  lemma OwnSocket(st: State, sid: Sid, m: Sid)
    requires WiredIn(st) && sid in st.sess && m in st.sess
    requires st.sess[sid].socket.Wired? && st.sess[m].socket == st.sess[sid].socket
    ensures m == sid
  {
  }

  lemma UnwireSilent(st: State, sid: Sid, close: bool)
    requires WiredIn(st) && sid in st.sess && st.sess[sid].place.Outside?
    ensures Silent(st, Unwire(st, sid, close))
  {
    UnwireShape(st, sid, close);
    var r := Unwire(st, sid, close);
    forall m | m in st.sess && st.sess[m].place.Inside? && Listening(st, m) ensures Listening(r, m) {
      if st.sess[sid].socket.Wired? && st.sess[m].socket == st.sess[sid].socket {
        OwnSocket(st, sid, m);
      }
    }
  }

  lemma EvictSilent(st: State, sid: Sid, now: int)
    requires sid in st.sess && st.sess[sid].place.Outside?
    ensures Silent(st, Evict(st, sid, now))
  {
  }

  lemma TouchSilent(st: State, sid: Sid, now: int)
    requires sid in st.sess
    ensures Silent(st, Touch(st, sid, now))
  {
  }

  lemma TerminateRostered(st: State, sid: Sid, close: bool, preserve: bool, now: int)
    requires Sound(st) && Rostered(st) && sid in st.sess
    ensures Rostered(Terminate(st, sid, close, preserve, now))
  {
    if !Gone(st, sid) {
      var left := Leave(st, sid);
      LeaveRostered(st, sid);
      LeaveSeated(st, sid);
      LeaveWired(st, sid);
      UnwireSilent(left, sid, close);
      var cut := Unwire(left, sid, close);
      SilentRostered(left, cut);
      UnwireShape(left, sid, close);
      EndRostered(cut, sid, preserve, now);
    }
  }

  lemma EndRostered(st: State, sid: Sid, preserve: bool, now: int)
    requires Rostered(st) && sid in st.sess && st.sess[sid].place.Outside?
    ensures Rostered(Touch(if preserve then st else Evict(st, sid, now), sid, now))
  {
    EvictSilent(st, sid, now);
    SilentRostered(st, Evict(st, sid, now));
    var ended := if preserve then st else Evict(st, sid, now);
    TouchSilent(ended, sid, now);
    SilentRostered(ended, Touch(ended, sid, now));
  }

  lemma {:induction false} TerminateAllRostered(st: State, sids: seq<Sid>, now: int)
    requires Sound(st) && Rostered(st)
    ensures Rostered(TerminateAll(st, sids, now))
  {
    if sids != [] {
      var init, last := sids[..|sids| - 1], sids[|sids| - 1];
      TerminateAllRostered(st, init, now);
      TerminateAllSound(st, init, now);
      var before := TerminateAll(st, init, now);
      if last in before.sess {
        TerminateRostered(before, last, true, false, now);
      }
    }
  }

  lemma StopRostered(st: State, ws: Ws)
    requires WiredIn(st) && Rostered(st)
    ensures Rostered(StopListening(st, ws))
  {
    var r := StopListening(st, ws);
    forall m | m in st.sess && Listening(st, m) ensures Listening(r, m) || m in r.log.gap {
      if st.sess[m].socket == Wired(ws) {
        assert ws in st.bound && st.bound[ws] == m;
      }
    }
    SilentRostered(st, r);
  }

  // Forgetting a closed socket's index entries.
  lemma ForgetSilent(st: State, authed: map<Ws, Sid>, bound: map<Ws, Sid>)
    ensures Silent(st, st.(authed := authed, bound := bound))
  {
  }

  lemma CloseRostered(st: State, ws: Ws, now: int)
    requires Sound(st) && Rostered(st)
    ensures Rostered(CloseEvent(st, ws, now))
  {
    var closed := StopListening(st, ws);
    StopRostered(st, ws);
    StopWired(st, ws);
    var r := CloseEvent(st, ws, now);
    if ws in st.bound && st.sess[st.bound[ws]].socket == Wired(ws) {
      var ended := Terminate(closed, st.bound[ws], false, true, now);
      TerminateRostered(closed, st.bound[ws], false, true, now);
      ForgetSilent(ended, ended.authed, ended.bound - {ws});
      SilentRostered(ended, r);
    } else {
      ForgetSilent(closed, closed.authed - {ws}, closed.bound - {ws});
      SilentRostered(closed, r);
    }
  }

  lemma AuthSilent(st: State, ws: Ws, sid: Sid, ip: string, now: int)
    requires WiredIn(st) && sid in st.nodes && sid in st.sess && ws !in st.bound
    ensures Silent(st, Auth(st, ws, sid, ip, now))
  {
    AuthShape(st, ws, sid, ip, now);
    var r := Auth(st, ws, sid, ip, now);
    forall m | m in st.sess && Listening(st, m) && m !in r.log.gap ensures Listening(r, m) {
      if m != sid && st.sess[sid].socket.Wired? && st.sess[m].socket == st.sess[sid].socket {
        OwnSocket(st, sid, m);
      }
    }
  }

  lemma AuthRostered(st: State, ws: Ws, sid: Sid, ip: string, now: int)
    requires WiredIn(st) && Rostered(st) && sid in st.nodes && sid in st.sess && ws !in st.bound
    ensures Rostered(Auth(st, ws, sid, ip, now))
  {
    AuthSilent(st, ws, sid, ip, now);
    SilentRostered(st, Auth(st, ws, sid, ip, now));
  }

  lemma AuthShape(st: State, ws: Ws, sid: Sid, ip: string, now: int)
    requires sid in st.sess
    ensures var r := Auth(st, ws, sid, ip, now);
            && r.sess == st.sess[sid := st.sess[sid].(socket := Wired(ws), lastSeen := now, ip := ip)]
            && r == st.(sess := r.sess, bound := r.bound, authed := r.authed, open := r.open,
               log := st.log.(gap := r.log.gap))
            && r.log.gap == if ws in st.open then st.log.gap else st.log.gap + {sid}
  {
  }

  lemma InsertRostered(st: State, s: Session)
    requires Sound(st) && Rostered(st) && s.place.Outside?
    ensures Rostered(Insert(st, s))
  {
    var r := Insert(st, s);
    assert st.next !in st.sess;
    forall m | m in r.sess ensures RosterRight(r, m) && m in r.log.inbox {
      if m != st.next {
        assert RosterRight(st, m);
        InsertExpected(st, s, m);
      }
    }
  }

  lemma InsertExpected(st: State, s: Session, m: Sid)
    requires Sound(st) && m in st.sess && st.next !in st.sess
    ensures var r := Insert(st, s);
            m in r.sess && (st.sess[m].place.Inside? ==> Expected(r, m) == Expected(st, m))
            && (Listening(st, m) ==> Listening(r, m))
  {
    var r := Insert(st, s);
    assert r.sess[m] == st.sess[m];
    if st.sess[m].place.Inside? {
      assert forall p :: p in Company(st, m) ==> p in st.sess && r.sess[p] == st.sess[p];
    }
  }

  // ----- every event -----

  lemma CommitRostered(cfg: Config, st: State, ask: Ask, hash: string, scrypt: bool, now: int)
    requires Sound(st) && Rostered(st)
    ensures Rostered(Commit(cfg, st, ask, hash, scrypt, now))
  {
    if Commits(cfg, st, ask, hash, now) {
      var taken := Consume(st, ask);
      UnseenSound(st, taken);
      SilentRostered(st, taken);
      InsertRostered(taken, NewSession(cfg, st, ask.nodeId, hash, scrypt, ask.at, ask.ip));
    }
  }

  lemma SeenRostered(st: State, sid: Sid, now: int)
    requires Sound(st) && Rostered(st) && sid in st.sess
    ensures Sound(Touch(st, sid, now)) && Rostered(Touch(st, sid, now))
  {
    EditSound(st, sid, st.sess[sid].(lastSeen := now));
    TouchSilent(st, sid, now);
    SilentRostered(st, Touch(st, sid, now));
  }

  lemma JoinFrameRostered(st: State, ws: Ws, peers: seq<Sid>, now: int)
    requires Sound(st) && Rostered(st) && JoinGuarded(st, ws, now) && !Expired(st.sess[st.bound[ws]], now)
    requires Lists(peers, Members(st, Home(st.sess[st.bound[ws]])) - {st.bound[ws]})
    ensures Rostered(Join(Touch(st, st.bound[ws], now), ws, st.bound[ws], peers))
  {
    var sid := st.bound[ws];
    SeenRostered(st, sid, now);
    JoinRostered(Touch(st, sid, now), ws, sid, peers);
  }

  lemma FrameRostered(st: State, e: Event, now: int)
    requires Sound(st) && Rostered(st) && (e.JoinFrame? || e.LeaveFrame? || e.BlockFrame?)
    requires e.ws in st.bound && st.bound[e.ws] in st.sess
    requires e.JoinFrame?
             ==> JoinGuarded(st, e.ws, now)
                 && Lists(e.peers, Members(st, Home(st.sess[st.bound[e.ws]])) - {st.bound[e.ws]})
    ensures Rostered(OnFrame(st, e, now))
  {
    var sid := st.bound[e.ws];
    if Expired(st.sess[sid], now) {
      StopRostered(st, e.ws);
    } else if e.JoinFrame? {
      JoinFrameRostered(st, e.ws, e.peers, now);
    } else {
      SeenRostered(st, sid, now);
      if e.LeaveFrame? {
        LeaveRostered(Touch(st, sid, now), sid);
      } else {
        BlockRostered(Touch(st, sid, now), sid, e.target);
      }
    }
  }

  lemma SocketRostered(cfg: Config, s: Sys, e: Event, now: int)
    requires Sound(s.st) && Rostered(s.st) && Enabled(s, e, now) && OfSocket(e)
    ensures Rostered(Apply(cfg, s, e, now).st)
  {
    match e
    case Connect(_) => SilentRostered(s.st, Apply(cfg, s, e, now).st);
    case AuthFrame(ws, sid, ip) => AuthRostered(s.st, ws, sid, ip, now);
    case ServerCloses(ws) => StopRostered(s.st, ws);
    case Closed(ws) => CloseRostered(s.st, ws, now);
    case JoinFrame(_, _) => FrameRostered(s.st, e, now);
    case LeaveFrame(_) => FrameRostered(s.st, e, now);
    case BlockFrame(_, _) => FrameRostered(s.st, e, now);
  }

  lemma VerifiedRostered(cfg: Config, s: Sys, id: nat, task: Task, ok: bool, now: int)
    requires Sound(s.st) && Rostered(s.st) && task.Verifying? && task.donor in s.st.sess && task.verifier in s.st.sess
    ensures Rostered(OnVerified(cfg, s, id, task, ok, now).st)
  {
    var up := Upgrade(s.st, task.verifier);
    EditSound(s.st, task.verifier, s.st.sess[task.verifier].(scrypt := true));
    SilentRostered(s.st, up);
    CommitRostered(cfg, up, task.ask, up.sess[task.donor].hash, true, now);
  }

  lemma RenewSilent(cfg: Config, st: State, sid: Sid, now: int)
    requires sid in st.sess
    ensures Silent(st, Renew(cfg, st, sid, now))
  {
  }

  lemma ReRegisterRostered(cfg: Config, st: State, proof: Proof, ip: string, admitted: bool, now: int)
    requires Sound(st) && Rostered(st)
    ensures Rostered(OnReRegister(cfg, st, proof, ip, admitted, now))
  {
    var found := Resolve(st, proof, now);
    if found.Resolved? {
      var s := st.sess[found.sid];
      var freed := Terminate(st, found.sid, true, false, now);
      TerminateSound(st, found.sid, now);
      TerminateRostered(st, found.sid, true, false, now);
      InsertRostered(freed, NewSession(cfg, freed, s.nodeId, s.hash, s.scrypt, now, ip));
    } else {
      AfterResolveSilent(st, proof, now);
      SilentRostered(st, AfterResolve(st, proof, now));
    }
  }

  lemma AfterResolveSilent(st: State, proof: Proof, now: int)
    ensures Silent(st, AfterResolve(st, proof, now))
  {
    AfterResolveUnseen(st, proof, now);
  }

  lemma RequestRostered(cfg: Config, s: Sys, e: Event, now: int)
    requires Sound(s.st) && Rostered(s.st) && Enabled(s, e, now) && OfRequest(e)
    ensures Rostered(Apply(cfg, s, e, now).st)
  {
    match e
    case Verified(id, ok) => VerifiedRostered(cfg, s, id, s.tasks[id], ok, now);
    case Hashed(id) => CommitRostered(cfg, s.st, s.tasks[id].ask, s.tasks[id].hash, true, now);
    case ReRegister(proof, ip, admitted) => ReRegisterRostered(cfg, s.st, proof, ip, admitted, now);
    case SessionRenew(sid) =>
      RenewSilent(cfg, s.st, sid, now);
      SilentRostered(s.st, Renew(cfg, s.st, sid, now));
    case Register(_, _, _, _, _, _) =>
    case HashRefused(_) =>
  }

  lemma TickRostered(cfg: Config, st: State, order: seq<Sid>, now: int)
    requires Sound(st) && Rostered(st)
    ensures Rostered(OnTick(cfg, st, order, now))
  {
    var purged := TerminateAll(st, Purged(cfg, st, order, now), now);
    TerminateAllRostered(st, Purged(cfg, st, order, now), now);
    SilentRostered(purged, OnTick(cfg, st, order, now));
  }

  lemma OtherRostered(cfg: Config, s: Sys, e: Event, now: int)
    requires Sound(s.st) && Rostered(s.st) && Enabled(s, e, now) && !OfSocket(e) && !OfRequest(e)
    ensures Rostered(Apply(cfg, s, e, now).st)
  {
    match e
    case Release(sid) => TerminateRostered(s.st, sid, true, false, now);
    case ReleaseByIp(sids) => TerminateAllRostered(s.st, sids, now);
    case QrToken(sid) => SilentRostered(s.st, OnQrToken(cfg, s.st, sid, now));
    case QrRedeem(token, hash) =>
      QrRedeemShape(cfg, s.st, token, hash, now);
      SilentRostered(s.st, OnQrRedeem(cfg, s.st, token, hash, now));
    case Tick(order) => TickRostered(cfg, s.st, order, now);
  }

  lemma StepRostered(cfg: Config, s: Sys, e: Event, now: int)
    requires Sound(s.st) && Rostered(s.st)
    ensures Rostered(Step(cfg, s, e, now).st)
  {
    if Enabled(s, e, now) {
      if OfSocket(e) {
        SocketRostered(cfg, s, e, now);
      } else if OfRequest(e) {
        RequestRostered(cfg, s, e, now);
      } else {
        OtherRostered(cfg, s, e, now);
      }
    }
  }

  lemma {:induction false} RunRostered(cfg: Config, t: Trace)
    ensures Rostered(Run(cfg, t).st)
  {
    if t.After? {
      RunRostered(cfg, t.before);
      EveryRunIsSound(cfg, t.before);
      StepRostered(cfg, Run(cfg, t.before), t.event, t.at);
    }
  }

  /** Replaying what a member was sent since it joined gives exactly its co-members that it was mutually
  unblocked with when the later of the two joined and that have not blocked it since, provided no frame
  can have missed it: its sockets stayed open and it joined on its current one. */
  lemma RosterReplay(cfg: Config, t: Trace, m: Sid)
    requires var st := Run(cfg, t).st; m in st.sess && st.sess[m].place.Inside? && m !in st.log.gap
    ensures var st := Run(cfg, t).st;
            && m in st.log.inbox && st.sess[m].place.channel in st.channels
            && (forall p :: p in Roster(st.log.inbox[m]) <==>
                  (p in st.channels[st.sess[m].place.channel] && p != m && (m, p) in st.log.met
                   && p in st.sess && m !in st.sess[p].blocked))
  {
    RunRostered(cfg, t);
    EveryRunIsSound(cfg, t);
    assert RosterRight(Run(cfg, t).st, m);
  }

  /** Of two members that see each other exactly one was told to call: the one that joined later. */
  lemma OneOfTwoCalls(cfg: Config, t: Trace, m: Sid, p: Sid)
    requires var st := Run(cfg, t).st;
             && m in st.sess && p in st.sess && st.sess[m].place.Inside? && st.sess[p].place.Inside?
             && m !in st.log.gap && p !in st.log.gap && m in st.log.inbox && p in st.log.inbox
             && p in Roster(st.log.inbox[m]) && m in Roster(st.log.inbox[p])
    ensures var st := Run(cfg, t).st;
            && m in st.log.stamp && p in st.log.stamp
            && Roster(st.log.inbox[m])[p] == (st.log.stamp[m] > st.log.stamp[p])
            && Roster(st.log.inbox[p])[m] == !Roster(st.log.inbox[m])[p]
  {
    RunRostered(cfg, t);
    assert RosterRight(Run(cfg, t).st, m) && RosterRight(Run(cfg, t).st, p);
    assert m != p;
  }
}
