/** A join, seen one peer and one session at a time. */
module HubJoin {
  import opened Protocol
  import opened PeerModel
  import opened HubModel
  import opened HubRegistry

  /** What a join is about, worked out from the state before it. */
  datatype Arrival = Arrival(
    p: PeerId,
    role: Role,
    key: string,
    replaced: Option<PeerId>,   // who held the slot
    other: Option<PeerId>,      // who holds the opposite slot
    timed: Option<PeerId>,      // whose timer the session held
    session: Session)           // the session the join leaves behind

  function Arrive(cfg: Config, st: State, m: JoinMessage, token: string): Arrival
    requires CheckJoin(m).None?
  {
    var p, role, key := |st.peers|, ParseRole(m.role).value, cfg.lower(m.session);
    var found := if key in st.sessions then st.sessions[key] else NewSession(m.session, token);
    var s := SetSlot(if m.imei != "" then found.(imei := m.imei) else found, role, Some(p));
    var other := Slot(found, Opposite(role));
    Arrival(p, role, key, Slot(found, role), other, found.lonely,
            s.(readySent := other.Some?,
               lonely := if other.Some? then None
                         else if role.Device? && cfg.noReceiverTimeout > 0 then Some(p)
                         else found.lonely))
  }

  function PairOf(a: Arrival): Pairing
    requires a.other.Some?
  {
    if a.role.Device? then Pairing(a.p, a.other.value, a.session.token)
    else Pairing(a.other.value, a.p, a.session.token)
  }

  function SendPaired(cfg: Config, b: Outbox, pair: Pairing, phone: bool): Outbox
  {
    Send(cfg, b, ReadyFrame(cfg, pair.token, phone), Paired(pair.device, pair.phone))
  }

  /** A peer that was there before the join, once the joiner is admitted. */
  function Host(cfg: Config, a: Arrival, i: PeerId, me: Peer): Peer
  {
    if a.other.None? then me
    else
      var calm := if a.timed == Some(i) then StopTimer(me) else me;
      if a.other == Some(i) then calm.(box := SendPaired(cfg, me.box, PairOf(a), me.role.Phone?)) else calm
  }

  /** The joiner once it is admitted. */
  function Guest(cfg: Config, a: Arrival, name: string, served: bool): Peer
  {
    var greeted := Send(cfg, EMPTY_BOX, Joined, Welcome);
    var me := NewPeer(a.role, a.key, name, served, a.replaced);
    me.(box := if a.other.Some? then SendPaired(cfg, greeted, PairOf(a), a.role.Phone?) else greeted,
        timer := if a.session.lonely == Some(a.p) then Armed else NoTimer)
  }

  /** `to` is `st` once both sides of its session `key` have been told. */
  ghost predicate Told(cfg: Config, st: State, to: State, key: string, pair: Pairing)
    requires key in st.sessions
  {
    var s := st.sessions[key];
    && to.sessions == st.sessions[key := s.(lonely := None, readySent := true)]
    && to.gauge == st.gauge && to.phase == st.phase && to.exits == st.exits
    && to.pairings == st.pairings + [pair]
    && |to.peers| == |st.peers|
    && forall i | 0 <= i < |st.peers| ::
         var me := if s.lonely == Some(i) then StopTimer(st.peers[i]) else st.peers[i];
         to.peers[i] == if i == pair.device then me.(box := SendPaired(cfg, me.box, pair, false))
                        else if i == pair.phone then me.(box := SendPaired(cfg, me.box, pair, true))
                        else me
  }

  /** What `Match` does to a full session whose sides have not been told. */
  lemma PairView(cfg: Config, st: State, p: PeerId)
    requires p < |st.peers|
    requires var key := st.peers[p].key;
             key in st.sessions && SlotsOk(st.peers, key, st.sessions[key])
             && IsPaired(st.sessions[key]) && !st.sessions[key].readySent
    ensures var key := st.peers[p].key;
            var s := st.sessions[key];
            Told(cfg, st, Match(cfg, st, p), key, Pairing(s.device.value, s.phone.value, s.token))
  {
    hide Next, Send;
    var key := st.peers[p].key;
    var s, calm := st.sessions[key], StopLonely(st, key);
    assert calm.sessions == st.sessions[key := s.(lonely := None)];
    assert Match(cfg, st, p) == SendReady(cfg, calm, key);
  }

  /** The joiner has its slot, and nothing else has happened yet. */
  lemma SeatView(cfg: Config, st: State, m: JoinMessage, token: string, served: bool)
    requires RegistryOk(cfg, st) && CheckJoin(m).None?
    ensures var a := Arrive(cfg, st, m, token);
            Sat(st, Seat(cfg, st, m, a.role, token, served), a, m.session, served)
  {
    hide WellFormed;
    var a := Arrive(cfg, st, m, token);
    if a.key in st.sessions {
      assert SessionOk(cfg, st, st.sessions[a.key]);
    }
  }

  /** `seated` is `st` with the joiner in its slot. */
  ghost predicate Sat(st: State, seated: State, a: Arrival, name: string, served: bool)
  {
    && seated.sessions == st.sessions[a.key := a.session.(readySent := false, lonely := a.timed)]
    && seated.gauge == st.gauge + (if a.key in st.sessions then 0 else 1)
    && seated.phase == st.phase && seated.pairings == st.pairings
    && seated.exits == (if a.replaced.Some? then st.exits.(replaced := st.exits.replaced + 1) else st.exits)
    && seated.peers == st.peers + [NewPeer(a.role, a.key, name, served, a.replaced)]
  }

  lemma ArriveSensible(cfg: Config, st: State, m: JoinMessage, token: string)
    requires WellFormed(st) && CheckJoin(m).None?
    ensures Sensible(st, Arrive(cfg, st, m, token))
  {
    var a := Arrive(cfg, st, m, token);
    if a.key in st.sessions {
      assert SlotsOk(st.peers, a.key, st.sessions[a.key]);
    }
  }

  /** A join that fills the session always pairs: the check of `readySent` never skips a ready. */
  lemma AdmitView(cfg: Config, st: State, m: JoinMessage, token: string, served: bool)
    requires RegistryOk(cfg, st) && CheckJoin(m).None?
    ensures Admitted(cfg, st, Admit(cfg, st, m, token, served), Arrive(cfg, st, m, token), m.session, served)
  {
    hide Match, Greeted, Admitted, Seat, OfferTo, SlotsOk, TargetsOk, SessionOk, PeerOk;
    var a := Arrive(cfg, st, m, token);
    ArriveSensible(cfg, st, m, token);
    GreetedView(cfg, st, m, token, served);
    var greeted := OfferTo(cfg, Seat(cfg, st, m, a.role, token, served), a.p, Joined, Welcome);
    if a.other.Some? {
      MatchPaired(cfg, st, greeted, a, m.session, served);
    } else {
      MatchLone(cfg, st, greeted, a, m.session, served);
    }
  }

  /** The joiner has been told that it joined. */
  lemma GreetedView(cfg: Config, st: State, m: JoinMessage, token: string, served: bool)
    requires RegistryOk(cfg, st) && CheckJoin(m).None?
    ensures var a := Arrive(cfg, st, m, token);
            var seated := Seat(cfg, st, m, a.role, token, served);
            a.p < |seated.peers| && Greeted(cfg, st, OfferTo(cfg, seated, a.p, Joined, Welcome), a, m.session, served)
  {
    var a := Arrive(cfg, st, m, token);
    SeatView(cfg, st, m, token, served);
    SeatKeepsSlots(cfg, st, m, a.role, token, served);
    hide Seat, OfferTo, Greeted, CheckJoin, RegistryOk;
    var seated := Seat(cfg, st, m, a.role, token, served);
    assert a.key in seated.sessions && SlotsOk(seated.peers, a.key, seated.sessions[a.key]);
    SatGreeted(cfg, st, seated, a, m.session, served);
  }

  lemma SatGreeted(cfg: Config, st: State, seated: State, a: Arrival, name: string, served: bool)
    requires a.p == |st.peers| && Sat(st, seated, a, name, served)
    requires SlotsOk(seated.peers, a.key, seated.sessions[a.key])
    ensures a.p < |seated.peers| && Greeted(cfg, st, OfferTo(cfg, seated, a.p, Joined, Welcome), a, name, served)
  {
    hide Send;
    var me := NewPeer(a.role, a.key, name, served, a.replaced);
    assert OfferTo(cfg, seated, a.p, Joined, Welcome).peers
        == st.peers + [me.(box := Send(cfg, EMPTY_BOX, Joined, Welcome))];
  }

  ghost predicate Admitted(cfg: Config, st: State, to: State, a: Arrival, name: string, served: bool)
  {
    && a.p == |st.peers|
    && to.sessions == st.sessions[a.key := a.session]
    && to.gauge == st.gauge + (if a.key in st.sessions then 0 else 1)
    && to.phase == st.phase
    && to.exits == (if a.replaced.Some? then st.exits.(replaced := st.exits.replaced + 1) else st.exits)
    && to.pairings == st.pairings + (if a.other.Some? then [PairOf(a)] else [])
    && |to.peers| == a.p + 1
    && (forall i | 0 <= i < a.p :: to.peers[i] == Host(cfg, a, i, st.peers[i]))
    && to.peers[a.p] == Guest(cfg, a, name, served)
  }

  ghost predicate Sensible(st: State, a: Arrival)
  {
    && a.p == |st.peers|
    && Slot(a.session, a.role) == Some(a.p) && Slot(a.session, Opposite(a.role)) == a.other
    && (a.other.Some? ==> a.other.value < |st.peers| && st.peers[a.other.value].role == Opposite(a.role))
    && (a.timed.Some? ==> a.timed.value < |st.peers|)
    && a.session.readySent == a.other.Some?
  }

  ghost predicate Greeted(cfg: Config, st: State, greeted: State, a: Arrival, name: string, served: bool)
  {
    && greeted.sessions == st.sessions[a.key := a.session.(readySent := false, lonely := a.timed)]
    && SlotsOk(greeted.peers, a.key, greeted.sessions[a.key])
    && greeted.gauge == st.gauge + (if a.key in st.sessions then 0 else 1)
    && greeted.phase == st.phase && greeted.pairings == st.pairings
    && greeted.exits == (if a.replaced.Some? then st.exits.(replaced := st.exits.replaced + 1) else st.exits)
    && greeted.peers == st.peers + [NewPeer(a.role, a.key, name, served, a.replaced)
                                      .(box := Send(cfg, EMPTY_BOX, Joined, Welcome))]
  }

  lemma MatchPaired(cfg: Config, st: State, greeted: State, a: Arrival, name: string, served: bool)
    requires Sensible(st, a) && Greeted(cfg, st, greeted, a, name, served)
    requires a.other.Some? && a.session.lonely.None?
    ensures Admitted(cfg, st, Match(cfg, greeted, a.p), a, name, served)
  {
    assert greeted.peers[a.p].key == a.key;
    PairView(cfg, greeted, a.p);
    ToldAdmits(cfg, st, greeted, Match(cfg, greeted, a.p), a, name, served);
  }

  lemma ToldAdmits(cfg: Config, st: State, greeted: State, to: State, a: Arrival, name: string, served: bool)
    requires Sensible(st, a) && Greeted(cfg, st, greeted, a, name, served)
    requires a.other.Some? && a.session.lonely.None?
    requires Told(cfg, greeted, to, a.key, PairOf(a))
    ensures Admitted(cfg, st, to, a, name, served)
  {
    hide Host, Guest;
    assert to.sessions == st.sessions[a.key := a.session];
    forall i | 0 <= i <= a.p
      ensures i < a.p ==> to.peers[i] == Host(cfg, a, i, st.peers[i])
      ensures i == a.p ==> to.peers[i] == Guest(cfg, a, name, served)
    {
      ToldPeer(cfg, st, greeted, to, a, name, served, i);
    }
  }

  lemma ToldPeer(cfg: Config, st: State, greeted: State, to: State, a: Arrival, name: string, served: bool, i: PeerId)
    requires Sensible(st, a) && Greeted(cfg, st, greeted, a, name, served)
    requires a.other.Some? && a.session.lonely.None?
    requires Told(cfg, greeted, to, a.key, PairOf(a)) && i <= a.p
    ensures i < a.p ==> to.peers[i] == Host(cfg, a, i, st.peers[i])
    ensures i == a.p ==> to.peers[i] == Guest(cfg, a, name, served)
  {
    hide Send, SlotsOk;
    if i < a.p {
      assert greeted.peers[i] == st.peers[i];
    } else {
      assert greeted.peers[a.p].timer == NoTimer;
    }
  }

  lemma MatchLone(cfg: Config, st: State, greeted: State, a: Arrival, name: string, served: bool)
    requires Sensible(st, a) && Greeted(cfg, st, greeted, a, name, served)
    requires a.other.None?
    requires a.session.lonely == if a.role.Device? && cfg.noReceiverTimeout > 0 then Some(a.p) else a.timed
    ensures Admitted(cfg, st, Match(cfg, greeted, a.p), a, name, served)
  {
    assert greeted.peers[a.p].key == a.key;
    var to := Match(cfg, greeted, a.p);
    assert to.sessions == st.sessions[a.key := a.session];
    forall i | 0 <= i < a.p ensures to.peers[i] == Host(cfg, a, i, st.peers[i]) {
      assert greeted.peers[i] == st.peers[i];
    }
  }

  /** Who else is told of a join. */
  lemma AnnounceView(cfg: Config, st: State, joiner: PeerId, session: string)
    ensures var to := Announce(cfg, st, joiner, session);
            && to == st.(peers := to.peers) && |to.peers| == |st.peers|
            && forall i | 0 <= i < |st.peers| ::
                 var me := st.peers[i];
                 to.peers[i] == if i != joiner && Seated(st, i)
                                then me.(box := Send(cfg, me.box, RemoteJoined(session), Announced(joiner))) else me
  {
  }

  // ----- what a join keeps of the registry -----

  /** Admitting a peer leaves the others in place: at most one gets a frame, and one timer stops. */
  ghost predicate Settled(a: Peer, b: Peer)
  {
    && SameIdentity(a, b) && a.task == b.task && a.acts == b.acts
    && (b.timer == a.timer || (a.timer.Armed? && b.timer.Stopped?))
  }

  lemma HostsSettle(cfg: Config, st: State, to: State, a: Arrival, name: string, served: bool)
    requires Admitted(cfg, st, to, a, name, served)
    ensures forall i | 0 <= i < a.p :: Settled(st.peers[i], to.peers[i])
    ensures forall i | 0 <= i < a.p && to.peers[i].timer != st.peers[i].timer :: a.other.Some? && a.timed == Some(i)
    ensures to.peers[a.p].role == a.role && to.peers[a.p].key == a.key && to.peers[a.p].name == name
    ensures to.peers[a.p].task == Joining(a.replaced) && to.peers[a.p].acts == []
    ensures to.peers[a.p].timer == if a.session.lonely == Some(a.p) then Armed else NoTimer
  {
  }

  lemma AdmittedKeepsSlots(cfg: Config, st: State, to: State, a: Arrival, name: string, served: bool, k: string)
    requires Sensible(st, a) && Fits(cfg, st, a, name) && Admitted(cfg, st, to, a, name, served) && k in to.sessions
    requires k in st.sessions ==> SlotsOk(st.peers, k, st.sessions[k])
    ensures SlotsOk(to.peers, k, to.sessions[k])
  {
    hide Send;
    HostsSettle(cfg, st, to, a, name, served);
  }

  lemma AdmittedKeepsTargets(cfg: Config, st: State, to: State, a: Arrival, name: string, served: bool, i: PeerId)
    requires Sensible(st, a) && Fits(cfg, st, a, name) && Admitted(cfg, st, to, a, name, served) && i < |to.peers|
    requires i < |st.peers| ==> TargetsOk(st.peers, st.peers[i])
    requires a.key in st.sessions ==> SlotsOk(st.peers, a.key, st.sessions[a.key])
    ensures TargetsOk(to.peers, to.peers[i])
  {
    hide Send;
    HostsSettle(cfg, st, to, a, name, served);
  }

  lemma AdmittedKeepsForm(cfg: Config, st: State, to: State, a: Arrival, name: string, served: bool)
    requires RegistryOk(cfg, st) && Sensible(st, a) && Fits(cfg, st, a, name)
    requires Admitted(cfg, st, to, a, name, served)
    ensures WellFormed(to)
  {
    hide SlotsOk, TargetsOk, Sensible, Fits, Admitted;
    forall k | k in to.sessions ensures SlotsOk(to.peers, k, to.sessions[k]) {
      AdmittedKeepsSlots(cfg, st, to, a, name, served, k);
    }
    forall i | 0 <= i < |to.peers| ensures TargetsOk(to.peers, to.peers[i]) {
      AdmittedKeepsTargets(cfg, st, to, a, name, served, i);
    }
  }

  /** What `Arrive` takes over from the session it found. */
  ghost predicate Fits(cfg: Config, st: State, a: Arrival, name: string)
  {
    && a.key == cfg.lower(name)
    && (a.key !in st.sessions ==> a.replaced.None? && a.other.None? && a.timed.None?)
    && (a.key in st.sessions ==>
          && a.replaced == Slot(st.sessions[a.key], a.role)
          && a.other == Slot(st.sessions[a.key], Opposite(a.role))
          && a.timed == st.sessions[a.key].lonely)
    && a.session.lonely == if a.other.Some? then None
                           else if a.role.Device? && cfg.noReceiverTimeout > 0 then Some(a.p) else a.timed
  }

  lemma AdmittedKeepsSessions(cfg: Config, st: State, to: State, a: Arrival, name: string, served: bool)
    requires RegistryOk(cfg, st) && st.phase.Open? && Sensible(st, a) && Fits(cfg, st, a, name)
    requires Admitted(cfg, st, to, a, name, served)
    ensures forall k | k in to.sessions :: SessionOk(cfg, to, to.sessions[k])
  {
    HostsSettle(cfg, st, to, a, name, served);
    if a.key in st.sessions {
      assert SessionOk(cfg, st, st.sessions[a.key]) && SlotsOk(st.peers, a.key, st.sessions[a.key]);
    }
    forall k | k in to.sessions ensures SessionOk(cfg, to, to.sessions[k]) {
      if k in st.sessions {
        assert SessionOk(cfg, st, st.sessions[k]) && SlotsOk(st.peers, k, st.sessions[k]);
      }
    }
  }

  lemma AdmittedKeepsPeer(cfg: Config, st: State, to: State, a: Arrival, name: string, served: bool, i: PeerId)
    requires Sensible(st, a) && Fits(cfg, st, a, name) && Admitted(cfg, st, to, a, name, served) && i < |to.peers|
    requires i < |st.peers| ==> PeerOk(cfg, st, i)
    ensures PeerOk(cfg, to, i)
  {
    hide Send;
    HostsSettle(cfg, st, to, a, name, served);
    if i < |st.peers| {
      assert Seated(to, i) ==> Seated(st, i);
    }
  }

  lemma AdmittedKeepsRegistry(cfg: Config, st: State, to: State, a: Arrival, name: string, served: bool)
    requires RegistryOk(cfg, st) && st.phase.Open? && Sensible(st, a) && Fits(cfg, st, a, name)
    requires Admitted(cfg, st, to, a, name, served)
    ensures RegistryOk(cfg, to)
  {
    hide Sensible, Fits, PeerOk, SessionOk, Host, Guest;
    AdmittedKeepsForm(cfg, st, to, a, name, served);
    AdmittedKeepsSessions(cfg, st, to, a, name, served);
    forall i | 0 <= i < |to.peers| ensures PeerOk(cfg, to, i) {
      AdmittedKeepsPeer(cfg, st, to, a, name, served, i);
    }
  }
}
