/** The pairing registry as a state machine over values. Every step is either one region under
    the hub's mutex or one effect that follows an unlock, so other steps may come in between. */
module HubModel {
  import opened Protocol
  import opened PeerModel

  datatype Session = Session(
    name: string,
    imei: string,
    token: string,
    device: Option<PeerId>,
    phone: Option<PeerId>,
    readySent: bool,
    lonely: Option<PeerId>)     // the device whose timer the session holds

  function Slot(s: Session, role: Role): Option<PeerId>
  {
    if role.Device? then s.device else s.phone
  }

  function SetSlot(s: Session, role: Role, p: Option<PeerId>): Session
  {
    if role.Device? then s.(device := p) else s.(phone := p)
  }

  predicate IsEmpty(s: Session) { s.device.None? && s.phone.None? }

  predicate IsPaired(s: Session) { s.device.Some? && s.phone.Some? }

  /** A device and a phone that met in a session. */
  datatype Pairing = Pairing(device: PeerId, phone: PeerId, token: string)

  /** How many peers gave up their slot, by cause. */
  datatype Exits = Exits(replaced: nat, left: nat, expired: nat, cleared: nat)

  /** How far `Close` has come. `Cleared` is the gap before it corrects the gauge. */
  datatype Phase = Open | Draining | Cleared(remaining: nat) | Shut

  datatype State = State(
    sessions: map<string, Session>,
    peers: seq<Peer>,
    gauge: int,
    phase: Phase,
    pairings: seq<Pairing>,
    exits: Exits)

  const Init: State := State(map[], [], 0, Open, [], Exits(0, 0, 0, 0))

  /** The session still points at this exact peer. */
  predicate Seated(st: State, p: PeerId)
  {
    && p < |st.peers|
    && st.peers[p].key in st.sessions
    && Slot(st.sessions[st.peers[p].key], st.peers[p].role) == Some(p)
  }

  /** The peer in the opposite slot of the session `p` names. */
  function Counterpart(st: State, p: PeerId): Option<PeerId>
    requires p < |st.peers| && st.peers[p].key in st.sessions
  {
    Slot(st.sessions[st.peers[p].key], Opposite(st.peers[p].role))
  }

  ghost predicate SeatOk(peers: seq<Peer>, key: string, role: Role, slot: Option<PeerId>)
  {
    slot.Some? ==>
      slot.value < |peers| && peers[slot.value].role == role && peers[slot.value].key == key
  }

  ghost predicate SlotsOk(peers: seq<Peer>, key: string, s: Session)
  {
    SeatOk(peers, key, Device, s.device) && SeatOk(peers, key, Phone, s.phone) && SeatOk(peers, key, Device, s.lonely)
  }

  ghost predicate TargetsOk(peers: seq<Peer>, p: Peer)
  {
    && (p.task.Joining? && p.task.replaced.Some? ==> p.task.replaced.value < |peers|)
    && (p.task.Relaying? || p.task.Departing? ==>
          p.acts != [] && Last(p).to.Some? && Last(p).to.value < |peers|)
  }

  function Last(p: Peer): Act
    requires p.acts != []
  {
    p.acts[|p.acts| - 1]
  }

  /** Every reference of the registry leads to a peer of the right role and session. */
  ghost predicate WellFormed(st: State)
  {
    && (forall k | k in st.sessions :: SlotsOk(st.peers, k, st.sessions[k]))
    && (forall p | 0 <= p < |st.peers| :: TargetsOk(st.peers, st.peers[p]))
  }

  function SetPeer(st: State, p: PeerId, peer: Peer): State
    requires p < |st.peers|
  {
    st.(peers := st.peers[p := peer])
  }

  function SetBox(st: State, p: PeerId, box: Outbox): State
    requires p < |st.peers|
  {
    SetPeer(st, p, st.peers[p].(box := box))
  }

  function SetSession(st: State, key: string, s: Session): State
  {
    st.(sessions := st.sessions[key := s])
  }

  function OfferTo(cfg: Config, st: State, p: PeerId, frame: Frame, cause: Cause): State
    requires p < |st.peers|
  {
    SetBox(st, p, Send(cfg, st.peers[p].box, frame, cause))
  }

  function StopTimer(p: Peer): Peer
  {
    if p.timer.Armed? then p.(timer := Stopped) else p
  }

  /** `stopLonely`: a timer that already fired cannot be stopped, only forgotten. */
  function StopLonely(st: State, key: string): State
    requires key in st.sessions && SlotsOk(st.peers, key, st.sessions[key])
  {
    var s := st.sessions[key];
    if s.lonely.None? then st
    else SetPeer(SetSession(st, key, s.(lonely := None)), s.lonely.value, StopTimer(st.peers[s.lonely.value]))
  }

  /** `to` is `st` once the session `key` has given up its timer. */
  ghost predicate Calmed(st: State, to: State, key: string)
    requires key in st.sessions
  {
    var s := st.sessions[key];
    && to == st.(sessions := st.sessions[key := s.(lonely := None)], peers := to.peers)
    && |to.peers| == |st.peers|
    && forall i | 0 <= i < |st.peers| ::
         to.peers[i] == if s.lonely == Some(i) then StopTimer(st.peers[i]) else st.peers[i]
  }

  lemma CalmView(st: State, key: string)
    requires key in st.sessions && SlotsOk(st.peers, key, st.sessions[key])
    ensures Calmed(st, StopLonely(st, key), key)
  {
    var s := st.sessions[key];
    if s.lonely.None? {
      assert st.sessions[key := s.(lonely := None)] == st.sessions;
    }
  }

  function DropSession(st: State, key: string): State
  {
    st.(sessions := st.sessions - {key}, gauge := st.gauge - 1)
  }

  // ----- join -----

  function NewSession(name: string, token: string): Session
  {
    Session(name, "", token, None, None, false, None)
  }

  /** Finds or creates the session. */
  function OpenSession(st: State, key: string, name: string, token: string): State
  {
    if key in st.sessions then st
    else st.(sessions := st.sessions[key := NewSession(name, token)], gauge := st.gauge + 1)
  }

  function Enlist(st: State, p: Peer): State
  {
    st.(peers := st.peers + [p])
  }

  /** The session once `p` has taken the slot; a peer that was there loses it. */
  function Claim(s: Session, imei: string, role: Role, p: PeerId): Session
  {
    var named := if imei != "" then s.(imei := imei) else s;
    var taken := SetSlot(named, role, Some(p));
    if Slot(named, role).Some? then taken.(readySent := false) else taken
  }

  function TakeSlot(st: State, key: string, imei: string, p: PeerId, role: Role): State
    requires key in st.sessions
  {
    var replaced := Slot(st.sessions[key], role);
    SetSession(st, key, Claim(st.sessions[key], imei, role, p))
      .(exits := if replaced.Some? then st.exits.(replaced := st.exits.replaced + 1) else st.exits)
  }

  function Seat(cfg: Config, st: State, m: JoinMessage, role: Role, token: string, served: bool): State
  {
    var key := cfg.lower(m.session);
    var found := OpenSession(st, key, m.session, token);
    var me := NewPeer(role, key, m.session, served, Slot(found.sessions[key], role));
    TakeSlot(Enlist(found, me), key, m.imei, |st.peers|, role)
  }

  /** Tells both sides of a full session that they are paired. */
  function SendReady(cfg: Config, st: State, key: string): State
    requires key in st.sessions && SlotsOk(st.peers, key, st.sessions[key]) && IsPaired(st.sessions[key])
  {
    var s := st.sessions[key];
    var d, ph := s.device.value, s.phone.value;
    var marked := SetSession(st, key, s.(readySent := true)).(pairings := st.pairings + [Pairing(d, ph, s.token)]);
    var half := OfferTo(cfg, marked, d, ReadyFrame(cfg, s.token, false), Paired(d, ph));
    OfferTo(cfg, half, ph, ReadyFrame(cfg, s.token, true), Paired(d, ph))
  }

  /** Stops the timer of a full session, and tells both sides if they have not been told. */
  function PairUp(cfg: Config, st: State, key: string): State
    requires key in st.sessions && SlotsOk(st.peers, key, st.sessions[key]) && IsPaired(st.sessions[key])
  {
    var calm := StopLonely(st, key);
    if !calm.sessions[key].readySent then SendReady(cfg, calm, key) else calm
  }

  /** Pairs the joiner with a waiting counterpart, or arms the timer of a lone device. */
  function Match(cfg: Config, st: State, p: PeerId): State
    requires p < |st.peers| && st.peers[p].key in st.sessions
    requires SlotsOk(st.peers, st.peers[p].key, st.sessions[st.peers[p].key])
  {
    var key := st.peers[p].key;
    if IsPaired(st.sessions[key]) then PairUp(cfg, st, key)
    else if st.peers[p].role.Device? && cfg.noReceiverTimeout > 0 then
      SetPeer(SetSession(st, key, st.sessions[key].(lonely := Some(p))), p, st.peers[p].(timer := Armed))
    else st
  }

  /** Tells every connected peer but the joiner. */
  function Announce(cfg: Config, st: State, joiner: PeerId, session: string): State
  {
    st.(peers := seq(|st.peers|, i requires 0 <= i < |st.peers| =>
      if i != joiner && Seated(st, i)
      then st.peers[i].(box := Send(cfg, st.peers[i].box, RemoteJoined(session), Announced(joiner)))
      else st.peers[i]))
  }

  lemma SeatKeepsSlots(cfg: Config, st: State, m: JoinMessage, role: Role, token: string, served: bool)
    requires WellFormed(st)
    ensures WellFormed(Seat(cfg, st, m, role, token, served))
  {
    hide SlotsOk, TargetsOk;
    var to := Seat(cfg, st, m, role, token, served);
    forall k | k in to.sessions ensures SlotsOk(to.peers, k, to.sessions[k]) {
      SeatKeepsSession(cfg, st, m, role, token, served, k);
    }
    forall p | 0 <= p < |to.peers| ensures TargetsOk(to.peers, to.peers[p]) {
      SeatKeepsTarget(cfg, st, m, role, token, served, p);
    }
  }

  lemma SeatKeepsSession(cfg: Config, st: State, m: JoinMessage, role: Role, token: string, served: bool, k: string)
    requires k in st.sessions ==> SlotsOk(st.peers, k, st.sessions[k])
    requires k in Seat(cfg, st, m, role, token, served).sessions
    ensures var to := Seat(cfg, st, m, role, token, served); SlotsOk(to.peers, k, to.sessions[k])
  {
    if k != cfg.lower(m.session) {
      assert Seat(cfg, st, m, role, token, served).sessions[k] == st.sessions[k];
    }
  }

  lemma SeatKeepsTarget(cfg: Config, st: State, m: JoinMessage, role: Role, token: string, served: bool, p: PeerId)
    requires WellFormed(st) && p <= |st.peers|
    ensures var to := Seat(cfg, st, m, role, token, served);
            |to.peers| == |st.peers| + 1 && TargetsOk(to.peers, to.peers[p])
  {
    var key := cfg.lower(m.session);
    if p < |st.peers| {
      assert TargetsOk(st.peers, st.peers[p]);
    } else if key in st.sessions {
      assert SlotsOk(st.peers, key, st.sessions[key]);
    }
  }

  /** As `Announce`, to the peers of some sessions only. */
  function AnnounceTo(cfg: Config, st: State, joiner: PeerId, session: string, keys: set<string>): State
  {
    st.(peers := seq(|st.peers|, i requires 0 <= i < |st.peers| =>
      if i != joiner && Seated(st, i) && st.peers[i].key in keys
      then st.peers[i].(box := Send(cfg, st.peers[i].box, RemoteJoined(session), Announced(joiner)))
      else st.peers[i]))
  }

  /** Nobody is told if no session is visited. */
  lemma AnnounceToNone(cfg: Config, st: State, joiner: PeerId, session: string)
    ensures AnnounceTo(cfg, st, joiner, session, {}) == st
  {
    assert AnnounceTo(cfg, st, joiner, session, {}).peers == st.peers;
  }

  /** Visiting every session once, in whatever order, tells every seated peer once. */
  lemma AnnounceToAll(cfg: Config, st: State, joiner: PeerId, session: string)
    ensures AnnounceTo(cfg, st, joiner, session, st.sessions.Keys) == Announce(cfg, st, joiner, session)
  {
    assert AnnounceTo(cfg, st, joiner, session, st.sessions.Keys).peers == Announce(cfg, st, joiner, session).peers;
  }

  /** The send to one slot of a visited session. */
  function Tell(cfg: Config, st: State, joiner: PeerId, session: string, slot: Option<PeerId>): State
    requires slot.Some? ==> slot.value < |st.peers|
  {
    if slot.Some? && slot.value != joiner
    then OfferTo(cfg, st, slot.value, RemoteJoined(session), Announced(joiner)) else st
  }

  lemma AnnounceToMore(cfg: Config, st: State, joiner: PeerId, session: string, keys: set<string>, k: string)
    requires k in st.sessions && k !in keys && SlotsOk(st.peers, k, st.sessions[k])
    ensures AnnounceTo(cfg, st, joiner, session, keys + {k})
         == Tell(cfg, Tell(cfg, AnnounceTo(cfg, st, joiner, session, keys), joiner, session, st.sessions[k].device),
                 joiner, session, st.sessions[k].phone)
  {
    var s, some := st.sessions[k], AnnounceTo(cfg, st, joiner, session, keys);
    var told := Tell(cfg, Tell(cfg, some, joiner, session, s.device), joiner, session, s.phone);
    assert AnnounceTo(cfg, st, joiner, session, keys + {k}).peers == told.peers;
  }

  /** The joiner is seated, greeted and matched. */
  function Admit(cfg: Config, st: State, m: JoinMessage, token: string, served: bool): State
    requires WellFormed(st) && CheckJoin(m).None?
  {
    var role, p := ParseRole(m.role).value, |st.peers|;
    var seated := Seat(cfg, st, m, role, token, served);
    SeatKeepsSlots(cfg, st, m, role, token, served);
    Match(cfg, OfferTo(cfg, seated, p, Joined, Welcome), p)
  }

  /** The region of `join` under the lock. */
  function JoinLock(cfg: Config, st: State, m: JoinMessage, token: string, served: bool): State
    requires WellFormed(st) && CheckJoin(m).None?
  {
    Announce(cfg, Admit(cfg, st, m, token, served), |st.peers|, m.session)
  }

  // ----- leave, forward, expiry, close -----

  function DropIfEmpty(st: State, key: string): State
    requires key in st.sessions
  {
    if IsEmpty(st.sessions[key]) then DropSession(st, key) else st
  }

  /** Empties a slot and stops the session's timer. */
  function Vacate(st: State, key: string, role: Role): State
    requires key in st.sessions && SlotsOk(st.peers, key, st.sessions[key])
  {
    StopLonely(SetSession(st, key, SetSlot(st.sessions[key], role, None)), key)
  }

  /** Forgets that ready was sent, and the session if nobody is left in it. */
  function Abandon(st: State, key: string): State
    requires key in st.sessions
  {
    DropIfEmpty(SetSession(st, key, st.sessions[key].(readySent := false)), key)
  }

  function NoteLeft(st: State, p: PeerId, other: Option<PeerId>): State
    requires p < |st.peers|
  {
    var me := st.peers[p];
    SetPeer(st, p, me.(acts := me.acts + [Act(Bye, other)], task := if other.Some? then Departing else Gone))
      .(exits := st.exits.(left := st.exits.left + 1))
  }

  function LeaveLock(st: State, p: PeerId): State
    requires WellFormed(st) && p < |st.peers|
  {
    if !Seated(st, p) then SetPeer(st, p, st.peers[p].(task := Gone))
    else
      var key, other := st.peers[p].key, Counterpart(st, p);
      NoteLeft(Abandon(Vacate(st, key, st.peers[p].role), key), p, other)
  }

  function ForwardLock(st: State, p: PeerId, raw: seq<byte>): State
    requires WellFormed(st) && p < |st.peers|
  {
    var other := if Seated(st, p) then Counterpart(st, p) else None;
    var me := st.peers[p];
    SetPeer(st, p, me.(acts := me.acts + [Act(Raw(raw), other)],
                       task := if other.Some? then Relaying else Idle))
  }

  /** The send that follows the unlock of `forward` and of `leave`. */
  function RelaySend(cfg: Config, st: State, p: PeerId): State
    requires WellFormed(st) && p < |st.peers| && (st.peers[p].task.Relaying? || st.peers[p].task.Departing?)
  {
    var act := Last(st.peers[p]);
    assert TargetsOk(st.peers, st.peers[p]);
    var sent := OfferTo(cfg, st, act.to.value, act.frame, Relayed(p, |st.peers[p].acts| - 1));
    SetPeer(sent, p, sent.peers[p].(task := if st.peers[p].task.Relaying? then Idle else Gone))
  }

  predicate Expires(st: State, d: PeerId)
  {
    && d < |st.peers|
    && st.peers[d].key in st.sessions
    && st.sessions[st.peers[d].key].device == Some(d)
    && st.sessions[st.peers[d].key].phone.None?
  }

  function ForgetDevice(st: State, key: string): State
    requires key in st.sessions
  {
    SetSession(st, key, st.sessions[key].(lonely := None, device := None))
  }

  function NoteExpired(st: State, d: PeerId): State
    requires d < |st.peers|
  {
    SetPeer(st, d, st.peers[d].(timer := Evicting)).(exits := st.exits.(expired := st.exits.expired + 1))
  }

  function ExpireLock(st: State, d: PeerId): State
    requires d < |st.peers|
  {
    if !Expires(st, d) then SetPeer(st, d, st.peers[d].(timer := Spent))
    else
      var key := st.peers[d].key;
      NoteExpired(DropIfEmpty(ForgetDevice(st, key), key), d)
  }

  predicate HoldsTimer(st: State, p: PeerId)
  {
    p < |st.peers| && st.peers[p].key in st.sessions && st.sessions[st.peers[p].key].lonely == Some(p)
  }

  function Occupants(st: State): set<PeerId>
  {
    set p | 0 <= p < |st.peers| && Seated(st, p)
  }

  /** `Close` under the lock: stop every timer, forget every session. */
  function ClearLock(st: State): State
  {
    st.(sessions := map[],
        peers := seq(|st.peers|, i requires 0 <= i < |st.peers| =>
          if HoldsTimer(st, i) then StopTimer(st.peers[i]) else st.peers[i]),
        phase := Cleared(|st.sessions|),
        exits := st.exits.(cleared := st.exits.cleared + |Occupants(st)|))
  }

  /** The timers of some sessions stopped. */
  function CalmTo(st: State, keys: set<string>): State
  {
    st.(sessions := map k | k in st.sessions :: if k in keys then st.sessions[k].(lonely := None) else st.sessions[k],
        peers := seq(|st.peers|, i requires 0 <= i < |st.peers| =>
          if HoldsTimer(st, i) && st.peers[i].key in keys then StopTimer(st.peers[i]) else st.peers[i]))
  }

  lemma CalmToNone(st: State)
    ensures CalmTo(st, {}) == st
  {
    assert CalmTo(st, {}).peers == st.peers && CalmTo(st, {}).sessions == st.sessions;
  }

  /** Stopping the timers one session at a time, in whatever order. */
  lemma CalmToMore(st: State, keys: set<string>, k: string)
    requires k in st.sessions && k !in keys && SlotsOk(st.peers, k, st.sessions[k])
    ensures var some := CalmTo(st, keys);
            k in some.sessions && SlotsOk(some.peers, k, some.sessions[k])
            && StopLonely(some, k) == CalmTo(st, keys + {k})
  {
    var some, more := CalmTo(st, keys), CalmTo(st, keys + {k});
    CalmView(some, k);
    assert StopLonely(some, k).peers == more.peers;
    assert StopLonely(some, k).sessions == more.sessions;
  }

  lemma CalmToAll(st: State)
    ensures ClearLock(st).peers == CalmTo(st, st.sessions.Keys).peers
    ensures ClearLock(st).sessions == map[] && ClearLock(st).gauge == CalmTo(st, st.sessions.Keys).gauge
  {
  }

  // ----- the step relation -----

  datatype Step =
    | Join(m: JoinMessage, token: string, served: bool)
    | FinishJoin(p: PeerId)
    | Forward(p: PeerId, raw: seq<byte>)
    | EndRead(p: PeerId)
    | Leave(p: PeerId)
    | Relay(p: PeerId)
    | Fire(p: PeerId)
    | Expire(p: PeerId)
    | ExpireSend(p: PeerId)
    | ExpireClose(p: PeerId)
    | WriteStep(p: PeerId)
    | WriteFailStep(p: PeerId)
    | TakeCloseStep(p: PeerId)
    | FlushEndStep(p: PeerId)
    | StopWriterStep(p: PeerId)
    | BeginClose
    | Clear
    | FixGauge

  predicate Enabled(st: State, step: Step)
  {
    match step
    case Join(m, _, _) => st.phase.Open? && CheckJoin(m).None?
    case BeginClose => st.phase.Open?
    case Clear => st.phase.Draining? && forall p | 0 <= p < |st.peers| && st.peers[p].served :: st.peers[p].task.Gone?
    case FixGauge => st.phase.Cleared?
    case _ => step.p < |st.peers| && PeerEnabled(st.peers[step.p], step)
  }

  /** The writer goroutine starts once the join has returned. */
  predicate Started(p: Peer) { !p.task.Joining? }

  predicate Writing(p: Peer) { Started(p) && (p.box.writer.Running? || p.box.writer.Flushing?) }

  predicate PeerEnabled(me: Peer, step: Step)
  {
    match step
    case FinishJoin(_) => me.task.Joining?
    case Forward(_, _) => me.task.Idle?
    case EndRead(_) => me.task.Idle?
    // `handleConn` waits for the writer before its deferred leave; a direct caller may leave at
    // any time, and again.
    case Leave(_) => (me.task.Ended? && (me.served ==> WriterDone(me.box))) || me.task.Gone?
    case Relay(_) => me.task.Relaying? || me.task.Departing?
    case Fire(_) => me.timer.Armed?
    case Expire(_) => me.timer.Fired?
    case ExpireSend(_) => me.timer.Evicting?
    case ExpireClose(_) => me.timer.Closing?
    case WriteStep(_) => Writing(me) && me.box.queue != []
    case WriteFailStep(_) => Writing(me) && me.box.queue != []
    case TakeCloseStep(_) => Started(me) && me.box.writer.Running? && me.box.closing != []
    case FlushEndStep(_) => Started(me) && me.box.writer.Flushing? && me.box.queue == []
    case StopWriterStep(_) => Started(me) && me.box.writer.Running?
    case _ => false
  }

  function ReplacedReason(role: Role): string
  {
    "replaced by a new " + RoleName(role)
  }

  function Next(cfg: Config, st: State, step: Step): State
    requires WellFormed(st) && Enabled(st, step)
  {
    match step
    case Join(m, token, served) => JoinLock(cfg, st, m, token, served)
    case FinishJoin(p) =>
      assert TargetsOk(st.peers, st.peers[p]);
      var replaced := st.peers[p].task.replaced;
      var reason := ReplacedReason(st.peers[p].role);
      var closed := if replaced.None? then st
                    else SetBox(st, replaced.value, Close(st.peers[replaced.value].box, reason));
      SetPeer(closed, p, closed.peers[p].(task := Idle))
    case Forward(p, raw) => ForwardLock(st, p, raw)
    case EndRead(p) => SetPeer(st, p, st.peers[p].(task := Ended))
    case Leave(p) => LeaveLock(st, p)
    case Relay(p) => RelaySend(cfg, st, p)
    case Fire(p) => SetPeer(st, p, st.peers[p].(timer := Fired))
    case Expire(p) => ExpireLock(st, p)
    case ExpireSend(p) =>
      var sent := OfferTo(cfg, st, p, Bye, TimedOut);
      SetPeer(sent, p, sent.peers[p].(timer := Closing))
    case ExpireClose(p) => SetPeer(st, p, st.peers[p].(box := Close(st.peers[p].box, NO_RECEIVER), timer := Spent))
    case WriteStep(p) => SetBox(st, p, Write(st.peers[p].box))
    case WriteFailStep(p) => SetBox(st, p, WriteFail(st.peers[p].box))
    case TakeCloseStep(p) => SetBox(st, p, TakeClose(st.peers[p].box))
    case FlushEndStep(p) => SetBox(st, p, FlushEnd(st.peers[p].box))
    case StopWriterStep(p) => SetBox(st, p, StopWriter(st.peers[p].box))
    case BeginClose => st.(phase := Draining)
    case Clear => ClearLock(st)
    case FixGauge => st.(gauge := st.gauge - st.phase.remaining, phase := Shut)
  }
}
