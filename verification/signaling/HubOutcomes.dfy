/** What the operations come to, told without the functions that define the steps. */
module HubOutcomes {
  import opened Protocol
  import opened PeerModel
  import opened HubModel
  import opened HubRegistry
  import opened HubJoin
  import opened HubLeave
  import opened HubInvariant
  import opened HubRuns

  // ----- who sits with whom -----

  /** Two peers hold slots of the same session. */
  predicate Together(st: State, p: PeerId, q: PeerId)
  {
    Seated(st, p) && Seated(st, q) && p != q && st.peers[p].key == st.peers[q].key
  }

  ghost predicate Alone(st: State, p: PeerId)
  {
    Seated(st, p) && forall q: PeerId :: !Together(st, p, q)
  }

  /** The lookup under the lock finds the one peer in the same session, which has the other role. */
  lemma TogetherIsCounterpart(st: State, p: PeerId, q: PeerId)
    requires WellFormed(st) && Seated(st, p)
    ensures Together(st, p, q) <==> Counterpart(st, p) == Some(q)
    ensures Together(st, p, q) ==> st.peers[q].role != st.peers[p].role
  {
    assert SlotsOk(st.peers, st.peers[p].key, st.sessions[st.peers[p].key]);
  }

  lemma AloneIsWithout(st: State, p: PeerId)
    requires WellFormed(st) && Seated(st, p)
    ensures Alone(st, p) <==> Counterpart(st, p).None?
  {
    forall q: PeerId ensures Together(st, p, q) <==> Counterpart(st, p) == Some(q) {
      TogetherIsCounterpart(st, p, q);
    }
    if Counterpart(st, p).Some? {
      assert Together(st, p, Counterpart(st, p).value);
    }
  }

  // ----- join -----

  /** The peer is the one the message asks for. */
  ghost predicate Named(cfg: Config, me: Peer, m: JoinMessage, served: bool)
  {
    && me.name == m.session && me.key == cfg.lower(m.session) && me.served == served
    && (me.role.Device? <==> m.role == "device") && (me.role.Phone? <==> m.role == "phone")
  }

  /** The session `s` after a join by `n`, where `was` is the session before it, if there was one. */
  ghost predicate Seats(s: Session, was: Option<Session>, n: PeerId, m: JoinMessage, token: string)
  {
    && (if m.role == "device" then s.device == Some(n) else s.phone == Some(n))
    && if was.Some? then
         && s.name == was.value.name && s.token == was.value.token
         && s.imei == (if m.imei != "" then m.imei else was.value.imei)
         && if m.role == "device" then s.phone == was.value.phone else s.device == was.value.device
       else
         && s.name == m.session && s.token == token && s.imei == m.imei
         && if m.role == "device" then s.phone.None? else s.device.None?
  }

  function Find(sessions: map<string, Session>, key: string): Option<Session>
  {
    if key in sessions then Some(sessions[key]) else None
  }

  /** One peer has come, which is the one the message asks for, and sits in the session that the message
      names. A session that was there keeps its token and whoever holds the other slot; a new one has the
      token that was made for it. Every other session is as it was. */
  ghost predicate Welcomed(cfg: Config, st: State, to: State, m: JoinMessage, token: string, served: bool)
  {
    var n, key := |st.peers|, cfg.lower(m.session);
    && |to.peers| == n + 1 && Named(cfg, to.peers[n], m, served)
    && key in to.sessions && Seats(to.sessions[key], Find(st.sessions, key), n, m, token)
    && to.sessions.Keys == st.sessions.Keys + {key}
    && forall k | k in st.sessions && k != key :: to.sessions[k] == st.sessions[k]
  }

  lemma JoinWelcomes(cfg: Config, st: State, m: JoinMessage, token: string, served: bool)
    requires RegistryOk(cfg, st) && CheckJoin(m).None?
    ensures Welcomed(cfg, st, JoinLock(cfg, st, m, token, served), m, token, served)
  {
    hide JoinLock, RegistryOk;
    JoinerView(cfg, st, m, token, served);
  }

  /** The close of the replaced peer changes nothing of that. */
  lemma StillWelcome(cfg: Config, st: State, mid: State, m: JoinMessage, token: string, served: bool, p: PeerId)
    requires Welcomed(cfg, st, mid, m, token, served) && WellFormed(mid) && Enabled(mid, FinishJoin(p))
    ensures Welcomed(cfg, st, Next(cfg, mid, FinishJoin(p)), m, token, served)
  {
    hide Next, Seats, WellFormed;
    FinishJoinView(cfg, mid, p);
    var to := Next(cfg, mid, FinishJoin(p));
    assert Calm(mid.peers[|st.peers|], to.peers[|st.peers|]);
  }

  /** A peer stays the one that was asked for. */
  lemma NamedStays(cfg: Config, st: State, mid: State, to: State, m: JoinMessage, token: string, served: bool)
    requires Welcomed(cfg, st, mid, m, token, served) && |to.peers| == |mid.peers|
    requires SameIdentity(mid.peers[|st.peers|], to.peers[|st.peers|])
    ensures Named(cfg, to.peers[|st.peers|], m, served)
  {
  }

  /** Whoever held the slot that the message asks for has lost it, and has been asked to close. */
  ghost predicate Displaces(cfg: Config, st: State, to: State, m: JoinMessage)
  {
    forall r | 0 <= r < |st.peers| && Seated(st, r) && st.peers[r].key == cfg.lower(m.session)
               && (st.peers[r].role.Device? <==> m.role == "device") ::
      r < |to.peers| && !Seated(to, r) && to.peers[r].box.asked.Some?
  }

  lemma JoinDisplaces(cfg: Config, st: State, m: JoinMessage, token: string, served: bool)
    requires RegistryOk(cfg, st) && Enabled(st, Join(m, token, served))
    requires var mid := JoinLock(cfg, st, m, token, served);
             WellFormed(mid) && |st.peers| < |mid.peers| && Enabled(mid, FinishJoin(|st.peers|))
    ensures Displaces(cfg, st, Next(cfg, JoinLock(cfg, st, m, token, served), FinishJoin(|st.peers|)), m)
  {
    hide JoinLock, Next, WellFormed, SessionOk, PeerOk;
    var mid, n := JoinLock(cfg, st, m, token, served), |st.peers|;
    JoinerView(cfg, st, m, token, served);
    FinishJoinView(cfg, mid, n);
    var to := Next(cfg, mid, FinishJoin(n));
    forall r | 0 <= r < |st.peers| && Seated(st, r) && st.peers[r].key == cfg.lower(m.session)
               && (st.peers[r].role.Device? <==> m.role == "device")
      ensures r < |to.peers| && !Seated(to, r) && to.peers[r].box.asked.Some?
    {
      JoinSeats(cfg, st, m, token, served, r);
      assert Calm(mid.peers[r], to.peers[r]);
      FinishJoinAsks(cfg, mid, n, r);
    }
  }

  lemma FinishJoinAsks(cfg: Config, st: State, p: PeerId, r: PeerId)
    requires WellFormed(st) && Enabled(st, FinishJoin(p)) && st.peers[p].task == Joining(Some(r))
    ensures r < |Next(cfg, st, FinishJoin(p)).peers| && Next(cfg, st, FinishJoin(p)).peers[r].box.asked.Some?
  {
    hide JoinLock, LeaveLock, ExpireLock, ClearLock, ForwardLock, RelaySend;
    assert TargetsOk(st.peers, st.peers[p]);
  }

  /** A join with the close that follows it. */
  lemma JoinComesTo(cfg: Config, st: State, m: JoinMessage, token: string, served: bool)
    requires Reachable(cfg, st) && Enabled(st, Join(m, token, served)) && WellFormed(st)
    requires var mid := Next(cfg, st, Join(m, token, served));
             WellFormed(mid) && Enabled(mid, FinishJoin(|st.peers|))
    ensures var to := Next(cfg, Next(cfg, st, Join(m, token, served)), FinishJoin(|st.peers|));
            Welcomed(cfg, st, to, m, token, served) && Displaces(cfg, st, to, m)
  {
    hide JoinLock, LeaveLock, ExpireLock, ClearLock, ForwardLock, RelaySend, Welcomed, Displaces, WellFormed;
    ReachableInv(cfg, st);
    JoinWelcomes(cfg, st, m, token, served);
    StillWelcome(cfg, st, JoinLock(cfg, st, m, token, served), m, token, served, |st.peers|);
    JoinDisplaces(cfg, st, m, token, served);
  }

  // ----- forward and leave -----

  /** `frame` has been offered to the peer that sits with `p`, and nothing to anybody else. */
  ghost predicate Reaches(cfg: Config, st: State, to: State, p: PeerId, frame: Frame)
  {
    && |to.peers| == |st.peers|
    && forall q | 0 <= q < |st.peers| ::
         if Together(st, p, q) then Offered(cfg, st.peers[q].box, to.peers[q].box, frame)
         else to.peers[q].box == st.peers[q].box
  }

  /** A lookup that found the counterpart of `p`, and the send that follows it. */
  lemma SendReaches(cfg: Config, st: State, locked: State, p: PeerId, to: State, frame: Frame)
    requires WellFormed(st) && p < |st.peers| == |locked.peers| && SentOff(cfg, locked, p, to)
    requires forall q | 0 <= q < |st.peers| :: locked.peers[q].box == st.peers[q].box
    requires var other := if Seated(st, p) then Counterpart(st, p) else None;
             if other.None? then !locked.peers[p].task.Relaying? && !locked.peers[p].task.Departing?
             else (locked.peers[p].task.Relaying? || locked.peers[p].task.Departing?)
                  && locked.peers[p].acts != [] && Last(locked.peers[p]) == Act(frame, other)
    ensures Reaches(cfg, st, to, p, frame)
  {
    hide Send, JoinLock, LeaveLock, ExpireLock, ForwardLock, ClearLock, Offered, Together, Counterpart;
    assert TargetsOk(locked.peers, locked.peers[p]);
    forall q | 0 <= q < |st.peers|
      ensures if Together(st, p, q) then Offered(cfg, st.peers[q].box, to.peers[q].box, frame)
              else to.peers[q].box == st.peers[q].box
    {
      SeatedTogether(st, p, q);
      if Together(st, p, q) {
        SendOffers(cfg, st.peers[q].box, frame, Relayed(p, |locked.peers[p].acts| - 1));
      }
    }
  }

  lemma SeatedTogether(st: State, p: PeerId, q: PeerId)
    requires WellFormed(st) && p < |st.peers|
    ensures Together(st, p, q) <==> Seated(st, p) && Counterpart(st, p) == Some(q)
  {
    if Seated(st, p) {
      TogetherIsCounterpart(st, p, q);
    }
  }

  lemma ForwardReaches(cfg: Config, st: State, p: PeerId, raw: seq<byte>, to: State)
    requires WellFormed(st) && Enabled(st, Forward(p, raw))
    requires SentOff(cfg, Next(cfg, st, Forward(p, raw)), p, to)
    ensures Reaches(cfg, st, to, p, Raw(raw))
  {
    hide SentOff, WellFormed;
    SendReaches(cfg, st, Next(cfg, st, Forward(p, raw)), p, to, Raw(raw));
  }

  lemma LeaveReaches(cfg: Config, st: State, p: PeerId, to: State)
    requires WellFormed(st) && Enabled(st, Leave(p))
    requires SentOff(cfg, Next(cfg, st, Leave(p)), p, to)
    ensures Reaches(cfg, st, to, p, Bye)
  {
    hide SentOff, WellFormed, LeaveLock;
    LeaveView(st, p);
    SendReaches(cfg, st, LeaveLock(st, p), p, to, Bye);
  }

  // ----- expiry -----

  /** A bye was offered, and then a close requested for want of a receiver. */
  ghost predicate Dismissed(cfg: Config, a: Outbox, b: Outbox)
  {
    var room, last := |a.queue| < cfg.sendBuffer, |a.offered|;
    && b.written == a.written && b.writer == a.writer
    && |b.offered| == last + 1 && b.offered[..last] == a.offered && b.offered[last].frame == Bye
    && b.queue == (if room then a.queue + [Bye] else a.queue)
    && b.asked == if a.asked.Some? then a.asked else Some(if room then "no receiver" else "send buffer full")
  }

  /** A device that is alone has lost its session and is dismissed; any other is left in peace. */
  ghost predicate Expelled(cfg: Config, st: State, to: State, d: PeerId)
  {
    && |to.peers| == |st.peers|
    && to.sessions == (if Alone(st, d) then st.sessions - {st.peers[d].key} else st.sessions)
    && forall q | 0 <= q < |st.peers| ::
         if q == d && Alone(st, d) then Dismissed(cfg, st.peers[q].box, to.peers[q].box)
         else to.peers[q].box == st.peers[q].box
  }

  lemma ExpiresIsAlone(cfg: Config, st: State, d: PeerId)
    requires RegistryOk(cfg, st) && Enabled(st, Expire(d))
    ensures Expires(st, d) <==> Alone(st, d)
  {
    assert PeerOk(cfg, st, d);
    if Seated(st, d) {
      AloneIsWithout(st, d);
    } else if d < |st.peers| && st.peers[d].key in st.sessions {
      assert SlotsOk(st.peers, st.peers[d].key, st.sessions[st.peers[d].key]);
    }
  }

  lemma ByeDismisses(cfg: Config, b: Outbox)
    ensures Dismissed(cfg, b, Close(Send(cfg, b, Bye, TimedOut), NO_RECEIVER))
  {
    SendOffers(cfg, b, Bye, TimedOut);
  }

  /** The bye and the close that follow an expiry. */
  lemma GoodbyeSteps(cfg: Config, locked: State, d: PeerId, said: State)
    requires WellFormed(locked) && Enabled(locked, ExpireSend(d)) && said == Next(cfg, locked, ExpireSend(d))
    requires WellFormed(said) && Enabled(said, ExpireClose(d))
    ensures var to := Next(cfg, said, ExpireClose(d));
            && to.sessions == locked.sessions && |to.peers| == |locked.peers|
            && (forall q | 0 <= q < |locked.peers| && q != d :: to.peers[q] == locked.peers[q])
            && to.peers[d].box == Close(Send(cfg, locked.peers[d].box, Bye, TimedOut), NO_RECEIVER)
  {
    hide JoinLock, LeaveLock, ForwardLock, ClearLock, RelaySend, ExpireLock, WellFormed, Send, Close;
  }

  /** An expiry that finds its device alone, its bye and its close. */
  lemma ExpiryExpels(cfg: Config, st: State, d: PeerId, said: State)
    requires RegistryOk(cfg, st) && Enabled(st, Expire(d)) && Expires(st, d)
    requires var locked := Next(cfg, st, Expire(d));
             WellFormed(locked) && Enabled(locked, ExpireSend(d)) && said == Next(cfg, locked, ExpireSend(d))
    requires WellFormed(said) && Enabled(said, ExpireClose(d))
    ensures Expelled(cfg, st, Next(cfg, said, ExpireClose(d)), d)
  {
    hide Next, WellFormed, Send, Close, Dismissed, Alone, Expires;
    GoodbyeSteps(cfg, Next(cfg, st, Expire(d)), d, said);
    ExpiryLocked(cfg, st, d);
    ExpiresIsAlone(cfg, st, d);
    ByeDismisses(cfg, st.peers[d].box);
  }

  lemma ExpiryLocked(cfg: Config, st: State, d: PeerId)
    requires WellFormed(st) && Enabled(st, Expire(d)) && Expires(st, d)
    ensures Evicted(st, Next(cfg, st, Expire(d)), d)
  {
    hide JoinLock, LeaveLock, ForwardLock, ClearLock, RelaySend, ExpireLock;
    ExpireView(st, d);
  }

  /** An expiry that does not. */
  lemma ExpirySpares(cfg: Config, st: State, d: PeerId)
    requires RegistryOk(cfg, st) && Enabled(st, Expire(d)) && !Expires(st, d)
    ensures Expelled(cfg, st, Next(cfg, st, Expire(d)), d)
  {
    hide JoinLock, LeaveLock, ForwardLock, ClearLock, RelaySend, ExpireLock, Alone, Expires;
    ExpireView(st, d);
    ExpiresIsAlone(cfg, st, d);
  }

  lemma ExpiryComesTo(cfg: Config, st: State, d: PeerId, to: State)
    requires Reachable(cfg, st) && Enabled(st, Expire(d)) && WellFormed(st)
    requires SentAway(cfg, Next(cfg, st, Expire(d)), Expires(st, d), d, to)
    ensures Expelled(cfg, st, to, d)
  {
    hide Next, Enabled, Reachable, WellFormed, Expires, Expelled;
    ReachableInv(cfg, st);
    if Expires(st, d) {
      ExpiryExpels(cfg, st, d, Next(cfg, Next(cfg, st, Expire(d)), ExpireSend(d)));
    } else {
      ExpirySpares(cfg, st, d);
    }
  }
}
