/** When a timer can fire: only for a device that is alone, and only with a timeout set. */
module HubTimers {
  import opened Protocol
  import opened PeerModel
  import opened HubModel
  import opened HubRegistry
  import opened HubJoin
  import opened HubLeave
  import opened HubStreams
  import opened HubInvariant
  import opened HubRuns

  /** The pending timer of a seated peer is the one its session holds. */
  ghost predicate Held(sessions: map<string, Session>, p: PeerId, me: Peer)
  {
    me.timer.Armed? && me.key in sessions && Slot(sessions[me.key], me.role) == Some(p) ==>
      sessions[me.key].lonely == Some(p)
  }

  ghost predicate AllHeld(cfg: Config, st: State)
  {
    forall p | 0 <= p < |st.peers| ::
      Held(st.sessions, p, st.peers[p]) && (cfg.noReceiverTimeout <= 0 ==> st.peers[p].timer.NoTimer?)
  }

  lemma AdmittedHolds(cfg: Config, st: State, to: State, a: Arrival, name: string, served: bool)
    requires AllHeld(cfg, st) && Sensible(st, a) && Fits(cfg, st, a, name) && Admitted(cfg, st, to, a, name, served)
    ensures AllHeld(cfg, to)
  {
    hide Host, Guest, Held;
    forall p | 0 <= p < |to.peers|
      ensures Held(to.sessions, p, to.peers[p]) && (cfg.noReceiverTimeout <= 0 ==> to.peers[p].timer.NoTimer?)
    {
      AdmittedHoldsAt(cfg, st, to, a, name, served, p);
    }
  }

  lemma AdmittedHoldsAt(cfg: Config, st: State, to: State, a: Arrival, name: string, served: bool, p: PeerId)
    requires Sensible(st, a) && Fits(cfg, st, a, name) && Admitted(cfg, st, to, a, name, served) && p <= a.p
    requires p < a.p ==> Held(st.sessions, p, st.peers[p])
    requires p < a.p && cfg.noReceiverTimeout <= 0 ==> st.peers[p].timer.NoTimer?
    ensures Held(to.sessions, p, to.peers[p]) && (cfg.noReceiverTimeout <= 0 ==> to.peers[p].timer.NoTimer?)
  {
    hide Send;
    HostsSettle(cfg, st, to, a, name, served);
  }

  lemma AnnounceHolds(cfg: Config, st: State, joiner: PeerId, session: string)
    requires AllHeld(cfg, st)
    ensures AllHeld(cfg, Announce(cfg, st, joiner, session))
  {
    AnnounceView(cfg, st, joiner, session);
  }

  lemma LeaveHolds(cfg: Config, st: State, p: PeerId)
    requires AllHeld(cfg, st) && WellFormed(st) && p < |st.peers|
    ensures AllHeld(cfg, LeaveLock(st, p))
  {
    hide Left, LeaveLock, Held;
    LeaveView(st, p);
    if Seated(st, p) {
      assert SlotsOk(st.peers, st.peers[p].key, st.sessions[st.peers[p].key]);
      LeftHolds(cfg, st, LeaveLock(st, p), p);
    } else {
      GoneHolds(cfg, st, p);
    }
  }

  lemma GoneHolds(cfg: Config, st: State, p: PeerId)
    requires AllHeld(cfg, st) && p < |st.peers|
    ensures AllHeld(cfg, SetPeer(st, p, st.peers[p].(task := Gone)))
  {
    assert Held(st.sessions, p, st.peers[p]);
  }

  lemma LeftHolds(cfg: Config, st: State, to: State, p: PeerId)
    requires AllHeld(cfg, st) && Seated(st, p) && Left(st, to, p)
    requires SlotsOk(st.peers, st.peers[p].key, st.sessions[st.peers[p].key])
    ensures AllHeld(cfg, to)
  {
    forall q | 0 <= q < |to.peers|
      ensures Held(to.sessions, q, to.peers[q]) && (cfg.noReceiverTimeout <= 0 ==> to.peers[q].timer.NoTimer?)
    {
      assert Held(st.sessions, q, st.peers[q]);
      LeftHoldsAt(cfg, st, to, p, q);
    }
  }

  lemma LeftHoldsAt(cfg: Config, st: State, to: State, p: PeerId, q: PeerId)
    requires Seated(st, p) && Left(st, to, p) && q < |st.peers|
    requires SlotsOk(st.peers, st.peers[p].key, st.sessions[st.peers[p].key])
    requires Held(st.sessions, q, st.peers[q]) && (cfg.noReceiverTimeout <= 0 ==> st.peers[q].timer.NoTimer?)
    ensures Held(to.sessions, q, to.peers[q]) && (cfg.noReceiverTimeout <= 0 ==> to.peers[q].timer.NoTimer?)
  {
  }

  lemma NextHolds(cfg: Config, st: State, step: Step)
    requires AllHeld(cfg, st) && RegistryOk(cfg, st) && Enabled(st, step)
    ensures AllHeld(cfg, Next(cfg, st, step))
  {
    hide JoinLock, LeaveLock, ExpireLock, WellFormed, SessionOk, PeerOk;
    if step.Join? {
      JoinHolds(cfg, st, step.m, step.token, step.served);
    } else if step.Leave? {
      LeaveHolds(cfg, st, step.p);
    } else if step.Expire? {
      ExpireView(st, step.p);
    } else if !step.Clear? {
      QuietHolds(cfg, st, step);
    }
  }

  lemma QuietHolds(cfg: Config, st: State, step: Step)
    requires AllHeld(cfg, st) && WellFormed(st) && Enabled(st, step) && !Locks(step)
    ensures AllHeld(cfg, Next(cfg, st, step))
  {
    hide Next, Enabled, WellFormed;
    QuietView(cfg, st, step);
    var to := Next(cfg, st, step);
    forall p | 0 <= p < |to.peers|
      ensures Held(to.sessions, p, to.peers[p]) && (cfg.noReceiverTimeout <= 0 ==> to.peers[p].timer.NoTimer?)
    {
      assert Calm(st.peers[p], to.peers[p]) && Held(st.sessions, p, st.peers[p]);
    }
  }

  lemma JoinHolds(cfg: Config, st: State, m: JoinMessage, token: string, served: bool)
    requires AllHeld(cfg, st) && RegistryOk(cfg, st) && CheckJoin(m).None?
    ensures AllHeld(cfg, JoinLock(cfg, st, m, token, served))
  {
    hide AllHeld, Admit, Announce, SessionOk, PeerOk, SlotsOk;
    var a := Arrive(cfg, st, m, token);
    AdmitView(cfg, st, m, token, served);
    ArriveSensible(cfg, st, m, token);
    AdmittedHolds(cfg, st, Admit(cfg, st, m, token, served), a, m.session, served);
    AnnounceHolds(cfg, Admit(cfg, st, m, token, served), |st.peers|, m.session);
  }

  lemma {:induction false} TimersAreHeld(cfg: Config, states: seq<State>, steps: seq<Step>, i: nat)
    requires IsRun(cfg, states, steps) && i < |states|
    ensures AllHeld(cfg, states[i])
  {
    hide Next, RegistryOk, StreamsOk, BoxesOk, Held, Enabled;
    if i > 0 {
      TimersAreHeld(cfg, states, steps, i - 1);
      RunInv(cfg, states, steps, i - 1);
      assert StepAt(cfg, states, steps, i - 1);
      NextHolds(cfg, states[i - 1], steps[i - 1]);
    }
  }

  /** No timer is ever made without a timeout; and the timer of a device that sits with a phone is not pending,
      so it cannot fire. */
  lemma OnlyLoneDevicesAreTimed(cfg: Config, states: seq<State>, steps: seq<Step>, i: nat, d: PeerId)
    requires IsRun(cfg, states, steps) && i < |states| && d < |states[i].peers|
    ensures cfg.noReceiverTimeout <= 0 ==> states[i].peers[d].timer.NoTimer?
    ensures !states[i].peers[d].timer.NoTimer? ==> states[i].peers[d].role.Device?
    ensures states[i].peers[d].timer.Armed? && Seated(states[i], d) ==>
              var s := states[i].sessions[states[i].peers[d].key];
              s.lonely == Some(d) && s.device == Some(d) && s.phone.None?
  {
    TimersAreHeld(cfg, states, steps, i);
    RunInv(cfg, states, steps, i);
    var st := states[i];
    assert PeerOk(cfg, st, d);
    if Seated(st, d) {
      assert SessionOk(cfg, st, st.sessions[st.peers[d].key]);
    }
  }

  /** A device that gives up its slot takes its timer with it. */
  lemma LeaverIsUntimed(cfg: Config, states: seq<State>, steps: seq<Step>, i: nat, p: PeerId)
    requires IsRun(cfg, states, steps) && i < |steps| && steps[i] == Leave(p) && Seated(states[i], p)
    ensures p < |states[i + 1].peers| && !states[i + 1].peers[p].timer.Armed?
  {
    hide WellFormed, AllHeld, SessionOk, PeerOk, LeaveLock, StreamsOk, BoxesOk;
    TimersAreHeld(cfg, states, steps, i);
    RunInv(cfg, states, steps, i);
    assert StepAt(cfg, states, steps, i);
    LeaveView(states[i], p);
    HeldAt(cfg, states[i], p);
  }

  lemma HeldAt(cfg: Config, st: State, p: PeerId)
    requires AllHeld(cfg, st) && Seated(st, p)
    ensures st.peers[p].timer.Armed? ==> st.sessions[st.peers[p].key].lonely == Some(p)
  {
    assert Held(st.sessions, p, st.peers[p]);
  }
}
