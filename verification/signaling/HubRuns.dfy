/** Runs of the hub, and what holds in every state of every run. */
module HubRuns {
  import opened Protocol
  import opened PeerModel
  import opened HubModel
  import opened HubRegistry
  import opened HubJoin
  import opened HubLeave
  import opened HubStreams
  import opened HubInvariant
  import opened HubSteps

  ghost predicate StepsTo(cfg: Config, st: State, step: Step, to: State)
  {
    WellFormed(st) && Enabled(st, step) && to == Next(cfg, st, step)
  }

  ghost predicate StepAt(cfg: Config, states: seq<State>, steps: seq<Step>, i: nat)
  {
    i < |steps| && i + 1 < |states| && StepsTo(cfg, states[i], steps[i], states[i + 1])
  }

  /** A run from the empty hub: any interleaving of locked regions, of the effects that follow an
      unlock, of timers and of writers. */
  ghost predicate IsRun(cfg: Config, states: seq<State>, steps: seq<Step>)
  {
    && |states| == |steps| + 1
    && states[0] == Init
    && forall i: nat | i < |steps| :: StepAt(cfg, states, steps, i)
  }

  lemma {:induction false} RunInv(cfg: Config, states: seq<State>, steps: seq<Step>, i: nat)
    requires IsRun(cfg, states, steps) && i < |states|
    ensures Inv(cfg, states[i])
  {
    hide Inv, Next, Enabled;
    if i == 0 {
      InitInv(cfg);
    } else {
      RunInv(cfg, states, steps, i - 1);
      assert StepAt(cfg, states, steps, i - 1);
      NextKeepsInv(cfg, states[i - 1], steps[i - 1]);
    }
  }

  /** An enabled step can always be taken: the references it follows are never stale. */
  lemma RunExtends(cfg: Config, states: seq<State>, steps: seq<Step>, step: Step)
    requires IsRun(cfg, states, steps) && Enabled(states[|steps|], step)
    ensures WellFormed(states[|steps|])
    ensures IsRun(cfg, states + [Next(cfg, states[|steps|], step)], steps + [step])
  {
    hide Next, Enabled, WellFormed, StreamsOk;
    RunInv(cfg, states, steps, |steps|);
    var more, all := states + [Next(cfg, states[|steps|], step)], steps + [step];
    forall i: nat | i < |all| ensures StepAt(cfg, more, all, i) {
      if i < |steps| {
        assert StepAt(cfg, states, steps, i);
      }
    }
  }

  /** Some run leads here. */
  ghost predicate Reachable(cfg: Config, st: State)
  {
    exists states: seq<State>, steps: seq<Step> :: IsRun(cfg, states, steps) && states[|steps|] == st
  }

  lemma InitReachable(cfg: Config)
    ensures Reachable(cfg, Init)
  {
    assert IsRun(cfg, [Init], []);
  }

  lemma ReachableInv(cfg: Config, st: State)
    requires Reachable(cfg, st)
    ensures Inv(cfg, st)
  {
    var states: seq<State>, steps: seq<Step> :| IsRun(cfg, states, steps) && states[|steps|] == st;
    RunInv(cfg, states, steps, |steps|);
  }

  lemma ReachableForm(cfg: Config, st: State)
    requires Reachable(cfg, st)
    ensures WellFormed(st)
  {
    ReachableInv(cfg, st);
  }

  lemma ReachableNext(cfg: Config, st: State, step: Step)
    requires Reachable(cfg, st) && Enabled(st, step)
    ensures WellFormed(st) && Reachable(cfg, Next(cfg, st, step))
  {
    hide JoinLock, LeaveLock, Next;
    var states: seq<State>, steps: seq<Step> :| IsRun(cfg, states, steps) && states[|steps|] == st;
    RunExtends(cfg, states, steps, step);
    assert (states + [Next(cfg, st, step)])[|steps + [step]|] == Next(cfg, st, step);
  }

  /** The joiner, once greeted, is the last peer and has no timer. */
  lemma GreetedStage(cfg: Config, st: State, m: JoinMessage, token: string, served: bool)
    requires WellFormed(st) && CheckJoin(m).None?
    ensures var role, key := ParseRole(m.role).value, cfg.lower(m.session);
            var greeted := OfferTo(cfg, Seat(cfg, st, m, role, token, served), |st.peers|, Joined, Welcome);
            && |greeted.peers| == |st.peers| + 1
            && key in greeted.sessions && SlotsOk(greeted.peers, key, greeted.sessions[key])
            && greeted.peers[|st.peers|].timer.NoTimer? && greeted.peers[|st.peers|].key == key
  {
    var role, key := ParseRole(m.role).value, cfg.lower(m.session);
    var seated := Seat(cfg, st, m, role, token, served);
    SeatKeepsSlots(cfg, st, m, role, token, served);
    assert SlotsOk(seated.peers, key, seated.sessions[key]);
  }

  lemma AdmitStage(cfg: Config, st: State, m: JoinMessage, token: string, served: bool)
    requires Reachable(cfg, st) && Enabled(st, Join(m, token, served))
    ensures WellFormed(st) && WellFormed(Admit(cfg, st, m, token, served))
  {
    ReachableInv(cfg, st);
    AdmitKeepsInv(cfg, st, m, token, served);
  }

  /** The joiner, once its join has given up the lock. */
  lemma JoinerView(cfg: Config, st: State, m: JoinMessage, token: string, served: bool)
    requires RegistryOk(cfg, st) && CheckJoin(m).None?
    ensures var to, a := JoinLock(cfg, st, m, token, served), Arrive(cfg, st, m, token);
            && |to.peers| == |st.peers| + 1 && to.exits.left == st.exits.left
            && to.sessions == st.sessions[a.key := a.session]
            && var me := to.peers[|st.peers|];
               && me.task == Joining(a.replaced) && me.acts == [] && me.box.writer.Running?
               && me.role == a.role && me.key == a.key && me.name == m.session && me.served == served
  {
    hide SessionOk, PeerOk, Admit, Announce, Send, CheckJoin, Seated;
    var mid, a := Admit(cfg, st, m, token, served), Arrive(cfg, st, m, token);
    AdmitView(cfg, st, m, token, served);
    HostsSettle(cfg, st, mid, a, m.session, served);
    GuestRuns(cfg, a, m.session, served);
    AnnounceView(cfg, mid, |st.peers|, m.session);
  }

  lemma GuestRuns(cfg: Config, a: Arrival, name: string, served: bool)
    ensures Guest(cfg, a, name, served).box.writer.Running? && Guest(cfg, a, name, served).served == served
  {
  }

  lemma JoinTask(cfg: Config, st: State, m: JoinMessage, token: string, served: bool)
    requires Reachable(cfg, st) && Enabled(st, Join(m, token, served))
    ensures WellFormed(st)
    ensures var to, key := Next(cfg, st, Join(m, token, served)), cfg.lower(m.session);
            && |to.peers| == |st.peers| + 1
            && to.peers[|st.peers|].box.writer.Running?
            && to.peers[|st.peers|].task
            == Joining(if key in st.sessions then Slot(st.sessions[key], ParseRole(m.role).value) else None)
  {
    ReachableInv(cfg, st);
    hide Reachable, StreamsOk, BoxesOk, CountOk, CoverageOk;
    hide JoinLock, LeaveLock, ExpireLock, ClearLock, ForwardLock, RelaySend;
    JoinerView(cfg, st, m, token, served);
  }

  /** What a forward leaves for its goroutine to do. */
  lemma ForwardTask(cfg: Config, st: State, p: PeerId, raw: seq<byte>)
    requires Reachable(cfg, st) && Enabled(st, Forward(p, raw))
    ensures WellFormed(st)
    ensures var to, other := Next(cfg, st, Forward(p, raw)), if Seated(st, p) then Counterpart(st, p) else None;
            && |to.peers| == |st.peers|
            && to.peers[p].acts == st.peers[p].acts + [Act(Raw(raw), other)]
            && to.peers[p].task == (if other.Some? then Relaying else Idle)
            && forall i | 0 <= i < |st.peers| :: to.peers[i].box == st.peers[i].box
  {
    ReachableForm(cfg, st);
  }

  lemma FinishJoinTask(cfg: Config, st: State, p: PeerId)
    requires Reachable(cfg, st) && Enabled(st, FinishJoin(p))
    ensures WellFormed(st)
    ensures var to := Next(cfg, st, FinishJoin(p));
            |to.peers| == |st.peers| && to.peers[p].task.Idle? && to.peers[p].box.writer == st.peers[p].box.writer
  {
    ReachableForm(cfg, st);
    assert TargetsOk(st.peers, st.peers[p]);
  }

  lemma ExpireTask(cfg: Config, st: State, d: PeerId)
    requires Reachable(cfg, st) && Enabled(st, Expire(d))
    ensures WellFormed(st)
    ensures var to := Next(cfg, st, Expire(d));
            WellFormed(to) && (Expires(st, d) ==> Enabled(to, ExpireSend(d)))
  {
    ReachableNext(cfg, st, Expire(d));
    ReachableForm(cfg, Next(cfg, st, Expire(d)));
    ExpireView(st, d);
  }

  /** A relay adds nothing to the acts of anyone, and frees the goroutine that made it. */
  lemma RelayTask(cfg: Config, st: State, p: PeerId)
    requires Reachable(cfg, st) && Enabled(st, Relay(p))
    ensures WellFormed(st)
    ensures var to := Next(cfg, st, Relay(p));
            && |to.peers| == |st.peers| && to.sessions == st.sessions
            && (forall i | 0 <= i < |st.peers| :: to.peers[i].acts == st.peers[i].acts)
            && (forall i | 0 <= i < |st.peers| :: to.peers[i].box.writer == st.peers[i].box.writer)
            && to.peers[p].task == (if st.peers[p].task.Relaying? then Idle else Gone)
            && (Seated(to, p) ==> Seated(st, p))
  {
    hide LeaveLock, ExpireLock, ClearLock, ForwardLock, JoinLock;
    ReachableForm(cfg, st);
    assert TargetsOk(st.peers, st.peers[p]);
  }

  // ----- what an operation makes of its own peer -----

  /** `p` is who it was and sits where it sat, nobody has come, and nobody has left. */
  ghost predicate SameStanding(a: State, b: State, p: PeerId)
  {
    && p < |a.peers| == |b.peers| && Seated(b, p) == Seated(a, p) && b.exits.left == a.exits.left
    && SameIdentity(a.peers[p], b.peers[p])
  }

  /** The send that follows the unlock of `p`'s last operation, if there is one. */
  ghost predicate SentOff(cfg: Config, locked: State, p: PeerId, to: State)
  {
    && WellFormed(locked) && p < |locked.peers|
    && to == if locked.peers[p].task.Relaying? || locked.peers[p].task.Departing?
             then Next(cfg, locked, Relay(p)) else locked
  }

  /** The bye and the close that follow an expiry which evicted `d`. */
  ghost predicate SentAway(cfg: Config, locked: State, evicted: bool, d: PeerId, to: State)
  {
    if !evicted then to == locked
    else
      && WellFormed(locked) && Enabled(locked, ExpireSend(d))
      && var said := Next(cfg, locked, ExpireSend(d));
      && WellFormed(said) && Enabled(said, ExpireClose(d))
      && to == Next(cfg, said, ExpireClose(d))
  }

  lemma SentOffOutcome(cfg: Config, locked: State, p: PeerId, to: State)
    requires SentOff(cfg, locked, p, to)
    ensures SameStanding(locked, to, p) && to.peers[p].acts == locked.peers[p].acts
  {
    assert TargetsOk(locked.peers, locked.peers[p]);
  }

  /** A join brings one peer, which is seated and has done nothing. */
  lemma JoinOutcome(cfg: Config, st: State, m: JoinMessage, token: string, served: bool)
    requires Reachable(cfg, st) && Enabled(st, Join(m, token, served))
    ensures WellFormed(st)
    ensures var to := Next(cfg, st, Join(m, token, served));
            && |to.peers| == |st.peers| + 1 && Seated(to, |st.peers|)
            && to.peers[|st.peers|].acts == [] && to.exits.left == st.exits.left
  {
    ReachableInv(cfg, st);
    hide Reachable, StreamsOk, BoxesOk, CountOk, CoverageOk, Seated;
    hide JoinLock, LeaveLock, ExpireLock, ClearLock, ForwardLock, RelaySend;
    JoinSeats(cfg, st, m, token, served, |st.peers|);
    JoinerView(cfg, st, m, token, served);
  }

  lemma FinishJoinOutcome(cfg: Config, st: State, p: PeerId)
    requires WellFormed(st) && Enabled(st, FinishJoin(p))
    ensures SameStanding(st, Next(cfg, st, FinishJoin(p)), p)
    ensures Next(cfg, st, FinishJoin(p)).peers[p].acts == st.peers[p].acts
  {
    assert TargetsOk(st.peers, st.peers[p]);
  }

  /** A forward, with its send, adds one act of these bytes. */
  lemma ForwardOutcome(cfg: Config, st: State, p: PeerId, raw: seq<byte>, to: State)
    requires Reachable(cfg, st) && Enabled(st, Forward(p, raw)) && WellFormed(st)
    requires SentOff(cfg, Next(cfg, st, Forward(p, raw)), p, to)
    ensures SameStanding(st, to, p)
  {
    SentOffOutcome(cfg, Next(cfg, st, Forward(p, raw)), p, to);
  }

  /** A leave from the slot, with its send, adds one bye, and is counted once. */
  lemma LeaveOutcome(cfg: Config, st: State, p: PeerId, to: State)
    requires WellFormed(st) && Enabled(st, Leave(p)) && Seated(st, p)
    requires SentOff(cfg, Next(cfg, st, Leave(p)), p, to)
    ensures |to.peers| == |st.peers| && to.exits.left == st.exits.left + 1
    ensures to.peers[p].acts == st.peers[p].acts + [Act(Bye, Counterpart(st, p))]
    ensures SameIdentity(st.peers[p], to.peers[p])
  {
    LeaveView(st, p);
    SentOffOutcome(cfg, Next(cfg, st, Leave(p)), p, to);
  }

  /** `Close` under the lock leaves the queues alone, and every session's timer stopped. */
  lemma ClearOutcome(st: State)
    ensures var to := ClearLock(st);
            && |to.peers| == |st.peers| && to.sessions == map[] && to.phase == Cleared(|st.sessions|)
            && (forall i | 0 <= i < |st.peers| :: to.peers[i].box == st.peers[i].box)
            && forall i | 0 <= i < |st.peers| && HoldsTimer(st, i) :: !to.peers[i].timer.Armed?
  {
  }

  /** A connection that has ended its reading and stopped its writer may leave, and is where it was. */
  lemma EndReadOutcome(cfg: Config, st: State, p: PeerId)
    requires WellFormed(st) && Enabled(st, EndRead(p)) && st.peers[p].box.writer.Running?
    ensures var ended := Next(cfg, st, EndRead(p));
            && ended == SetPeer(st, p, st.peers[p].(task := Ended))
            && Enabled(ended, StopWriterStep(p))
            && (WellFormed(ended) ==>
                  var to := Next(cfg, ended, StopWriterStep(p));
                  Enabled(to, Leave(p)) && SameStanding(st, to, p) && to.peers[p].acts == st.peers[p].acts)
  {
    hide JoinLock, LeaveLock, ExpireLock, ClearLock, ForwardLock, RelaySend;
  }

  lemma ShutGauge(cfg: Config, st: State)
    requires Reachable(cfg, st) && st.phase.Shut?
    ensures st.gauge == 0 && st.sessions == map[]
  {
    ReachableInv(cfg, st);
  }

  // ----- who sits where -----

  /** After a join the seated peers are the joiner and all that were seated but the replaced one. */
  lemma JoinSeats(cfg: Config, st: State, m: JoinMessage, token: string, served: bool, p: PeerId)
    requires RegistryOk(cfg, st) && Enabled(st, Join(m, token, served)) && p <= |st.peers|
    ensures var a := Arrive(cfg, st, m, token);
            Seated(JoinLock(cfg, st, m, token, served), p) ==
            (p == |st.peers| || (Seated(st, p) && a.replaced != Some(p)))
  {
    hide Send, Fits, PeerOk, SessionOk, SlotsOk;
    var mid, a := Admit(cfg, st, m, token, served), Arrive(cfg, st, m, token);
    AdmitView(cfg, st, m, token, served);
    ArriveSensible(cfg, st, m, token);
    AdmittedSeats(cfg, st, mid, a, m.session, served, p);
    AnnounceView(cfg, mid, a.p, m.session);
  }

  lemma LeftSeats(st: State, to: State, q: PeerId, p: PeerId)
    requires Seated(st, q) && Left(st, to, q) && p < |st.peers|
    requires SlotsOk(st.peers, st.peers[q].key, st.sessions[st.peers[q].key])
    ensures Seated(to, p) == (Seated(st, p) && p != q)
  {
    hide Send;
  }

  lemma LeaveSeats(st: State, q: PeerId, p: PeerId)
    requires WellFormed(st) && q < |st.peers| && p < |st.peers|
    ensures Seated(LeaveLock(st, q), p) == (Seated(st, p) && p != q)
  {
    hide SlotsOk, Left;
    LeaveView(st, q);
    if Seated(st, q) {
      assert SlotsOk(st.peers, st.peers[q].key, st.sessions[st.peers[q].key]);
      LeftSeats(st, LeaveLock(st, q), q, p);
    }
  }

  lemma ExpireSeats(st: State, d: PeerId, p: PeerId)
    requires WellFormed(st) && d < |st.peers| && p < |st.peers|
    ensures Seated(ExpireLock(st, d), p) == (Seated(st, p) && !(p == d && Expires(st, d)))
  {
    ExpireView(st, d);
    if Expires(st, d) {
      assert SlotsOk(st.peers, st.peers[d].key, st.sessions[st.peers[d].key]);
    }
  }

  lemma ClearSeats(st: State, p: PeerId)
    requires p < |st.peers|
    ensures !Seated(ClearLock(st), p)
  {
  }

  lemma QuietSeats(cfg: Config, st: State, step: Step, p: PeerId)
    requires WellFormed(st) && Enabled(st, step) && !Locks(step) && p < |st.peers|
    ensures Seated(Next(cfg, st, step), p) == Seated(st, p)
  {
    QuietView(cfg, st, step);
    assert Calm(st.peers[p], Next(cfg, st, step).peers[p]);
  }

  /** No step but a join seats anyone, and a join seats only the joiner. */
  lemma NextSeats(cfg: Config, st: State, step: Step, p: PeerId)
    requires RegistryOk(cfg, st) && Enabled(st, step) && p < |st.peers|
    ensures Seated(Next(cfg, st, step), p) ==> Seated(st, p)
  {
    hide PeerEnabled, JoinLock, LeaveLock, ExpireLock, ClearLock, Arrive;
    if step.Join? {
      JoinSeats(cfg, st, step.m, step.token, step.served, p);
    } else if step.Leave? {
      LeaveSeats(st, step.p, p);
    } else if step.Expire? {
      ExpireSeats(st, step.p, p);
    } else if step.Clear? {
      ClearSeats(st, p);
    } else {
      QuietSeats(cfg, st, step, p);
    }
  }

  lemma LeaveUnseats(cfg: Config, st: State, p: PeerId)
    requires Reachable(cfg, st) && Enabled(st, Leave(p))
    ensures WellFormed(st) && !Seated(Next(cfg, st, Leave(p)), p)
  {
    ReachableForm(cfg, st);
    LeaveSeats(st, p, p);
  }

  /** One step of a run. */
  lemma RunStep(cfg: Config, states: seq<State>, steps: seq<Step>, i: nat)
    requires IsRun(cfg, states, steps) && i < |steps|
    ensures Grows(states[i], states[i + 1])
    ensures forall p | 0 <= p < |states[i].peers| && Seated(states[i + 1], p) :: Seated(states[i], p)
  {
    RunInv(cfg, states, steps, i);
    assert StepAt(cfg, states, steps, i);
    NextKeepsInv(cfg, states[i], steps[i]);
    forall p | 0 <= p < |states[i].peers| && Seated(states[i + 1], p) ensures Seated(states[i], p) {
      NextSeats(cfg, states[i], steps[i], p);
    }
  }

  /** A peer that has lost its slot never gets one again. */
  lemma {:induction false} NeverReturns(cfg: Config, states: seq<State>, steps: seq<Step>, i: nat, j: nat, p: PeerId)
    requires IsRun(cfg, states, steps) && i <= j < |states|
    requires p < |states[i].peers| && !Seated(states[i], p)
    ensures p < |states[j].peers| && !Seated(states[j], p)
    decreases j
  {
    if i < j {
      NeverReturns(cfg, states, steps, i, j - 1, p);
      RunStep(cfg, states, steps, j - 1);
    }
  }

  /** What was offered stays offered, in the same place. */
  lemma {:induction false} OffersStay(cfg: Config, states: seq<State>, steps: seq<Step>, i: nat, j: nat, p: PeerId)
    requires IsRun(cfg, states, steps) && i <= j < |states| && p < |states[i].peers|
    ensures p < |states[j].peers| && states[i].peers[p].box.offered <= states[j].peers[p].box.offered
    decreases j
  {
    if i < j {
      OffersStay(cfg, states, steps, i, j - 1, p);
      RunStep(cfg, states, steps, j - 1);
      assert states[j - 1].peers[p].box.offered <= states[j].peers[p].box.offered;
    }
  }
}
