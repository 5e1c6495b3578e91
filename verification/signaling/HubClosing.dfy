/** Nobody loses a slot silently: whoever is displaced is asked to close, or somebody still owes it. */
module HubClosing {
  import opened Protocol
  import opened PeerModel
  import opened HubModel
  import opened HubRegistry
  import opened HubJoin
  import opened HubLeave
  import opened HubInvariant
  import opened HubRuns

  /** The goroutine of `p` has replaced `r` and has not closed it yet. */
  predicate WillClose(st: State, p: PeerId, r: PeerId)
  {
    p < |st.peers| && st.peers[p].task == Joining(Some(r))
  }

  /** The expiry that evicted the peer has not closed it yet. */
  predicate WillExpire(me: Peer)
  {
    me.timer.Evicting? || me.timer.Closing?
  }

  /** The peer's own goroutine has given up the slot. */
  predicate WentAway(me: Peer)
  {
    me.task.Departing? || me.task.Gone?
  }

  /** `Close` has forgotten the sessions of peers that no connection served. */
  predicate Forgotten(st: State, me: Peer)
  {
    (st.phase.Cleared? || st.phase.Shut?) && !me.served
  }

  /** A peer holds its slot, gave it up itself, has been asked to close, or is owed that. */
  ghost predicate AccountedFor(st: State, r: PeerId)
    requires r < |st.peers|
  {
    var me := st.peers[r];
    || Seated(st, r) || WentAway(me) || me.box.asked.Some? || WillExpire(me)
    || (exists p: PeerId :: WillClose(st, p, r))
    || Forgotten(st, me)
  }

  // ----- what a step keeps -----

  /** What was asked stays asked, a departure goes on, and an eviction ends in a close. */
  ghost predicate Onward(a: Peer, b: Peer)
  {
    && b.served == a.served
    && (a.box.asked.Some? ==> b.box.asked == a.box.asked)
    && (WentAway(a) ==> WentAway(b))
    && (WillExpire(a) ==> WillExpire(b) || b.box.asked.Some?)
  }

  /** A joiner still has its close to make, or has made it. */
  ghost predicate Closes(to: State, p: PeerId, a: Task)
    requires p < |to.peers|
  {
    a.Joining? && a.replaced.Some? ==>
      to.peers[p].task == a || (a.replaced.value < |to.peers| && to.peers[a.replaced.value].box.asked.Some?)
  }

  ghost predicate Proceeds(st: State, to: State)
  {
    && |st.peers| <= |to.peers|
    && (Later(st.phase) ==> Later(to.phase))
    && (forall i | 0 <= i < |st.peers| :: Onward(st.peers[i], to.peers[i]))
    && (forall i | 0 <= i < |st.peers| :: Closes(to, i, st.peers[i].task))
  }

  predicate Later(phase: Phase) { phase.Cleared? || phase.Shut? }

  lemma SendKeepsAsked(cfg: Config, b: Outbox, frame: Frame, cause: Cause)
    ensures b.asked.Some? ==> Send(cfg, b, frame, cause).asked == b.asked
  {
  }

  lemma AdmittedProceeds(cfg: Config, st: State, to: State, a: Arrival, name: string, served: bool)
    requires Admitted(cfg, st, to, a, name, served)
    ensures Proceeds(st, to)
  {
    HostsSettle(cfg, st, to, a, name, served);
    forall i | 0 <= i < |st.peers| ensures Onward(st.peers[i], to.peers[i]) && Closes(to, i, st.peers[i].task) {
      assert Settled(st.peers[i], to.peers[i]);
    }
  }

  lemma AnnounceProceeds(cfg: Config, st: State, mid: State, joiner: PeerId, session: string)
    requires Proceeds(st, mid)
    ensures Proceeds(st, Announce(cfg, mid, joiner, session))
  {
    AnnounceView(cfg, mid, joiner, session);
    var to := Announce(cfg, mid, joiner, session);
    forall i | 0 <= i < |st.peers| ensures Onward(st.peers[i], to.peers[i]) && Closes(to, i, st.peers[i].task) {
      assert Onward(st.peers[i], mid.peers[i]) && Closes(mid, i, st.peers[i].task);
      SendKeepsAsked(cfg, mid.peers[i].box, RemoteJoined(session), Announced(joiner));
    }
  }

  lemma JoinProceeds(cfg: Config, st: State, m: JoinMessage, token: string, served: bool)
    requires RegistryOk(cfg, st) && CheckJoin(m).None?
    ensures Proceeds(st, JoinLock(cfg, st, m, token, served))
  {
    var mid := Admit(cfg, st, m, token, served);
    AdmitView(cfg, st, m, token, served);
    AdmittedProceeds(cfg, st, mid, Arrive(cfg, st, m, token), m.session, served);
    AnnounceProceeds(cfg, st, mid, |st.peers|, m.session);
  }

  lemma FinishJoinProceeds(cfg: Config, st: State, p: PeerId)
    requires WellFormed(st) && Enabled(st, FinishJoin(p))
    ensures Proceeds(st, Next(cfg, st, FinishJoin(p)))
  {
    hide JoinLock, LeaveLock, ExpireLock, ClearLock, ForwardLock, RelaySend;
    assert TargetsOk(st.peers, st.peers[p]);
    var to, replaced := Next(cfg, st, FinishJoin(p)), st.peers[p].task.replaced;
    if replaced.Some? {
      var mid := SetBox(st, replaced.value, Close(st.peers[replaced.value].box, ReplacedReason(st.peers[p].role)));
      SoloProceeds(st, mid, replaced.value, mid.peers[replaced.value]);
      TaskProceeds(st, mid, to, p, Idle);
    } else {
      SoloProceeds(st, to, p, to.peers[p]);
    }
  }

  /** The goroutine of `p` goes on after what it did to another peer. */
  lemma TaskProceeds(st: State, mid: State, to: State, p: PeerId, task: Task)
    requires Proceeds(st, mid) && p < |st.peers| && to == SetPeer(mid, p, mid.peers[p].(task := task))
    requires WentAway(st.peers[p]) ==> WentAway(to.peers[p])
    requires Closes(to, p, st.peers[p].task)
    ensures Proceeds(st, to)
  {
  }

  lemma RelayProceeds(cfg: Config, st: State, p: PeerId)
    requires WellFormed(st) && Enabled(st, Relay(p))
    ensures Proceeds(st, Next(cfg, st, Relay(p)))
  {
    hide JoinLock, LeaveLock, ExpireLock, ClearLock, ForwardLock;
    assert TargetsOk(st.peers, st.peers[p]);
    var act, to := Last(st.peers[p]), Next(cfg, st, Relay(p));
    var mid := OfferTo(cfg, st, act.to.value, act.frame, Relayed(p, |st.peers[p].acts| - 1));
    SoloProceeds(st, mid, act.to.value, mid.peers[act.to.value]);
    TaskProceeds(st, mid, to, p, to.peers[p].task);
  }

  /** A step that rewrites the peer `p` only. */
  lemma SoloProceeds(st: State, to: State, p: PeerId, me: Peer)
    requires p < |st.peers| && to.peers == st.peers[p := me] && (Later(st.phase) ==> Later(to.phase))
    requires Onward(st.peers[p], me)
    requires st.peers[p].task.Joining? && st.peers[p].task.replaced.Some? ==> me.task == st.peers[p].task
    ensures Proceeds(st, to)
  {
  }

  lemma LeaveProceeds(st: State, p: PeerId)
    requires WellFormed(st) && p < |st.peers| && !st.peers[p].task.Joining?
    ensures Proceeds(st, LeaveLock(st, p))
  {
    LeaveView(st, p);
    if Seated(st, p) {
      LeftProceeds(st, LeaveLock(st, p), p);
    } else {
      SoloProceeds(st, LeaveLock(st, p), p, st.peers[p].(task := Gone));
    }
  }

  lemma LeftProceeds(st: State, to: State, p: PeerId)
    requires Seated(st, p) && Left(st, to, p) && !st.peers[p].task.Joining?
    ensures Proceeds(st, to)
  {
    forall i | 0 <= i < |st.peers| ensures Onward(st.peers[i], to.peers[i]) && Closes(to, i, st.peers[i].task) {
    }
  }

  lemma ExpireProceeds(st: State, d: PeerId)
    requires d < |st.peers| && st.peers[d].timer.Fired?
    ensures Proceeds(st, ExpireLock(st, d))
  {
    ExpireView(st, d);
  }

  /** The steps that touch neither the lock nor another peer. */
  lemma OwnProceeds(cfg: Config, st: State, step: Step)
    requires WellFormed(st) && Enabled(st, step)
    requires Writes(step) || step.Forward? || step.EndRead? || step.Fire? || step.ExpireSend? || step.ExpireClose?
    ensures Proceeds(st, Next(cfg, st, step))
  {
    hide JoinLock, LeaveLock, ExpireLock, ClearLock, RelaySend;
    var to := Next(cfg, st, step);
    SoloProceeds(st, to, step.p, to.peers[step.p]);
  }

  lemma NextProceeds(cfg: Config, st: State, step: Step)
    requires RegistryOk(cfg, st) && Enabled(st, step)
    ensures Proceeds(st, Next(cfg, st, step))
  {
    if step.Join? {
      JoinProceeds(cfg, st, step.m, step.token, step.served);
    } else if step.FinishJoin? {
      FinishJoinProceeds(cfg, st, step.p);
    } else if step.Relay? {
      RelayProceeds(cfg, st, step.p);
    } else if step.Leave? {
      LeaveProceeds(st, step.p);
    } else if step.Expire? {
      ExpireProceeds(st, step.p);
    } else if step.BeginClose? || step.Clear? || step.FixGauge? {
      PhaseProceeds(cfg, st, step);
    } else {
      OwnProceeds(cfg, st, step);
    }
  }

  lemma PhaseProceeds(cfg: Config, st: State, step: Step)
    requires WellFormed(st) && Enabled(st, step) && (step.BeginClose? || step.Clear? || step.FixGauge?)
    ensures Proceeds(st, Next(cfg, st, step))
  {
    hide PeerEnabled, WellFormed;
  }

  /** Whoever a step unseats is accounted for. */
  lemma UnseatedAccounted(cfg: Config, st: State, step: Step, r: PeerId)
    requires RegistryOk(cfg, st) && Enabled(st, step) && r < |st.peers| && Seated(st, r)
    ensures |st.peers| <= |Next(cfg, st, step).peers| && AccountedFor(Next(cfg, st, step), r)
  {
    hide WellFormed, SessionOk, Closes, Onward, JoinLock, LeaveLock;
    NextProceeds(cfg, st, step);
    if step.Join? {
      JoinUnseats(cfg, st, step.m, step.token, step.served, r);
    } else if step.Leave? {
      LeaveSeats(st, step.p, r);
      LeaveView(st, step.p);
    } else if step.Expire? {
      ExpireSeats(st, step.p, r);
      ExpireView(st, step.p);
    } else if step.Clear? {
      assert PeerOk(cfg, st, r);
    } else {
      QuietSeats(cfg, st, step, r);
    }
  }

  lemma JoinUnseats(cfg: Config, st: State, m: JoinMessage, token: string, served: bool, r: PeerId)
    requires RegistryOk(cfg, st) && Enabled(st, Join(m, token, served)) && r < |st.peers| && Seated(st, r)
    ensures var to := JoinLock(cfg, st, m, token, served);
            |st.peers| < |to.peers| && (Seated(to, r) || WillClose(to, |st.peers|, r))
  {
    JoinSeats(cfg, st, m, token, served, r);
    JoinerView(cfg, st, m, token, served);
  }

  lemma StaysAccounted(cfg: Config, st: State, step: Step, r: PeerId)
    requires RegistryOk(cfg, st) && Enabled(st, step) && r < |st.peers| && AccountedFor(st, r)
    ensures |st.peers| <= |Next(cfg, st, step).peers| && AccountedFor(Next(cfg, st, step), r)
  {
    var to := Next(cfg, st, step);
    NextProceeds(cfg, st, step);
    if Seated(st, r) {
      UnseatedAccounted(cfg, st, step, r);
    } else {
      StaysOwed(st, to, r);
    }
  }

  lemma StaysOwed(st: State, to: State, r: PeerId)
    requires Proceeds(st, to) && r < |st.peers| && AccountedFor(st, r) && !Seated(st, r)
    ensures AccountedFor(to, r)
  {
    assert Onward(st.peers[r], to.peers[r]);
    if exists p: PeerId :: WillClose(st, p, r) {
      var p: PeerId :| WillClose(st, p, r);
      assert Closes(to, p, st.peers[p].task);
      assert WillClose(to, p, r) || to.peers[r].box.asked.Some?;
    }
  }

  lemma NewcomersAccounted(cfg: Config, st: State, step: Step, r: PeerId)
    requires RegistryOk(cfg, st) && Enabled(st, step)
    requires |st.peers| <= r < |Next(cfg, st, step).peers|
    ensures AccountedFor(Next(cfg, st, step), r)
  {
    hide WellFormed, SessionOk, PeerOk;
    if step.Join? {
      JoinerView(cfg, st, step.m, step.token, step.served);
      JoinSeats(cfg, st, step.m, step.token, step.served, r);
    } else if step.Leave? {
      LeaveView(st, step.p);
    } else if step.Expire? {
      ExpireView(st, step.p);
    } else if !step.Clear? {
      QuietView(cfg, st, step);
    }
  }

  // ----- over a run -----

  lemma RunProceeds(cfg: Config, states: seq<State>, steps: seq<Step>, i: nat)
    requires IsRun(cfg, states, steps) && i < |steps|
    ensures Proceeds(states[i], states[i + 1])
  {
    RunInv(cfg, states, steps, i);
    assert StepAt(cfg, states, steps, i);
    NextProceeds(cfg, states[i], steps[i]);
  }

  /** In every state of every run each peer still holds its slot, or gave it up itself, or has been asked
      to close, or is owed that by the join that replaced it or by the expiry that evicted it. Only
      `Close` forgets peers, and only such as no connection served. */
  lemma {:induction false} NobodyIsForgotten(cfg: Config, states: seq<State>, steps: seq<Step>, i: nat, r: PeerId)
    requires IsRun(cfg, states, steps) && i < |states| && r < |states[i].peers|
    ensures AccountedFor(states[i], r)
  {
    hide Next, WellFormed, RegistryOk, BoxesOk;
    if i > 0 {
      RunInv(cfg, states, steps, i - 1);
      assert StepAt(cfg, states, steps, i - 1);
      if r < |states[i - 1].peers| {
        NobodyIsForgotten(cfg, states, steps, i - 1, r);
        StaysAccounted(cfg, states[i - 1], steps[i - 1], r);
      } else {
        NewcomersAccounted(cfg, states[i - 1], steps[i - 1], r);
      }
    }
  }

  /** A close request stays, with the reason it was first given. */
  lemma {:induction false} AskedStays(cfg: Config, states: seq<State>, steps: seq<Step>, i: nat, j: nat, r: PeerId)
    requires IsRun(cfg, states, steps) && i <= j < |states|
    requires r < |states[i].peers| && states[i].peers[r].box.asked.Some?
    ensures r < |states[j].peers| && states[j].peers[r].box.asked == states[i].peers[r].box.asked
    decreases j
  {
    if i < j {
      AskedStays(cfg, states, steps, i, j - 1, r);
      RunProceeds(cfg, states, steps, j - 1);
      assert Onward(states[j - 1].peers[r], states[j].peers[r]);
    }
  }

  lemma {:induction false} OwedUntilAsked(cfg: Config, states: seq<State>, steps: seq<Step>, i: nat, j: nat,
                                           p: PeerId, r: PeerId)
    requires IsRun(cfg, states, steps) && i <= j < |states| && r < |states[i].peers|
    ensures r < |states[j].peers|
    ensures WillClose(states[i], p, r) ==> WillClose(states[j], p, r) || states[j].peers[r].box.asked.Some?
    ensures WillExpire(states[i].peers[r]) ==> WillExpire(states[j].peers[r]) || states[j].peers[r].box.asked.Some?
    decreases j
  {
    if i < j {
      OwedUntilAsked(cfg, states, steps, i, j - 1, p, r);
      RunProceeds(cfg, states, steps, j - 1);
      assert Onward(states[j - 1].peers[r], states[j].peers[r]);
      if WillClose(states[j - 1], p, r) {
        assert Closes(states[j], p, states[j - 1].peers[p].task);
      }
    }
  }

  lemma JoinOwes(cfg: Config, states: seq<State>, steps: seq<Step>, i: nat, r: PeerId)
    requires IsRun(cfg, states, steps) && i < |steps| && r < |states[i].peers| && steps[i].Join?
    ensures Seated(states[i], r) && !Seated(states[i + 1], r) ==> WillClose(states[i + 1], |states[i].peers|, r)
  {
    RunInv(cfg, states, steps, i);
    assert StepAt(cfg, states, steps, i);
    if Seated(states[i], r) {
      JoinUnseats(cfg, states[i], steps[i].m, steps[i].token, steps[i].served, r);
    }
  }

  lemma ExpiryOwes(cfg: Config, states: seq<State>, steps: seq<Step>, i: nat, r: PeerId)
    requires IsRun(cfg, states, steps) && i < |steps| && r < |states[i].peers| && steps[i] == Expire(r)
    ensures r < |states[i + 1].peers|
    ensures Seated(states[i], r) && !Seated(states[i + 1], r) ==> WillExpire(states[i + 1].peers[r])
  {
    RunInv(cfg, states, steps, i);
    assert StepAt(cfg, states, steps, i);
    ExpireSeats(states[i], r, r);
    ExpireView(states[i], r);
  }

  lemma JoinPays(cfg: Config, states: seq<State>, steps: seq<Step>, i: nat, r: PeerId)
    requires IsRun(cfg, states, steps) && i < |steps| && r < |states[i].peers|
    requires steps[i].FinishJoin? && WillClose(states[i], steps[i].p, r)
    ensures r < |states[i + 1].peers|
    ensures states[i + 1].peers[r].box.asked
         == FirstReason(states[i].peers[r].box.asked, ReplacedReason(states[i].peers[steps[i].p].role))
  {
    hide JoinLock, LeaveLock, ExpireLock, ClearLock, ForwardLock, RelaySend, RoleName;
    assert StepAt(cfg, states, steps, i);
    assert TargetsOk(states[i].peers, states[i].peers[steps[i].p]);
  }

  lemma ExpiryPays(cfg: Config, states: seq<State>, steps: seq<Step>, i: nat, r: PeerId)
    requires IsRun(cfg, states, steps) && i < |steps| && r < |states[i].peers| && steps[i] == ExpireClose(r)
    ensures r < |states[i + 1].peers|
    ensures states[i + 1].peers[r].box.asked == FirstReason(states[i].peers[r].box.asked, NO_RECEIVER)
  {
    hide JoinLock, LeaveLock, ExpireLock, ClearLock, ForwardLock, RelaySend;
    assert StepAt(cfg, states, steps, i);
  }

  lemma ReasonGiven()
    ensures ReplacedReason(Device) == "replaced by a new device" && ReplacedReason(Phone) == "replaced by a new phone"
  {
  }

  /** Whoever a join replaces or an expiry evicts is asked to close at any time after, unless the very
      goroutine that displaced it has yet to go on. When it goes on, the reason is its own, unless one
      had been given before, and stays. */
  lemma DisplacedIsClosed(cfg: Config, states: seq<State>, steps: seq<Step>, i: nat, j: nat, r: PeerId)
    requires IsRun(cfg, states, steps) && i < j < |states| && r < |states[i].peers|
    ensures r < |states[j].peers|
    ensures steps[i].Join? && Seated(states[i], r) && !Seated(states[i + 1], r) ==>
              WillClose(states[j], |states[i].peers|, r) || states[j].peers[r].box.asked.Some?
    ensures steps[i] == Expire(r) && Seated(states[i], r) && !Seated(states[i + 1], r) ==>
              WillExpire(states[j].peers[r]) || states[j].peers[r].box.asked.Some?
    ensures steps[i].FinishJoin? && WillClose(states[i], steps[i].p, r) ==>
              states[j].peers[r].box.asked
              == FirstReason(states[i].peers[r].box.asked, if states[i].peers[steps[i].p].role.Device?
                                                           then "replaced by a new device"
                                                           else "replaced by a new phone")
    ensures steps[i] == ExpireClose(r) ==>
              states[j].peers[r].box.asked == FirstReason(states[i].peers[r].box.asked, "no receiver")
  {
    hide StepAt, Seated, Proceeds, ReplacedReason;
    ReasonGiven();
    PeerStays(cfg, states, steps, i, r);
    OwedUntilAsked(cfg, states, steps, i + 1, j, |states[i].peers|, r);
    if steps[i].Join? {
      JoinOwes(cfg, states, steps, i, r);
    } else if steps[i] == Expire(r) {
      ExpiryOwes(cfg, states, steps, i, r);
    } else if steps[i].FinishJoin? && WillClose(states[i], steps[i].p, r) {
      JoinPays(cfg, states, steps, i, r);
      AskedStays(cfg, states, steps, i + 1, j, r);
    } else if steps[i] == ExpireClose(r) {
      ExpiryPays(cfg, states, steps, i, r);
      AskedStays(cfg, states, steps, i + 1, j, r);
    }
  }

  lemma PeerStays(cfg: Config, states: seq<State>, steps: seq<Step>, i: nat, r: PeerId)
    requires IsRun(cfg, states, steps) && i < |steps| && r < |states[i].peers|
    ensures r < |states[i + 1].peers|
  {
    RunProceeds(cfg, states, steps, i);
  }

  function FirstReason(asked: Option<string>, reason: string): Option<string>
  {
    if asked.Some? then asked else Some(reason)
  }
}
