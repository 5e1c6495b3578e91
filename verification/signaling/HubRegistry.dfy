/** What every step keeps about the registry itself: who sits where, when `readySent` holds,
    whom the lonely timer belongs to, and what the gauge shows. */
module HubRegistry {
  import opened Protocol
  import opened PeerModel
  import opened HubModel

  // ----- the registry invariant -----

  ghost predicate SessionOk(cfg: Config, st: State, s: Session)
  {
    && !IsEmpty(s)
    && (s.readySent <==> IsPaired(s))
    && (s.lonely.Some? ==>
          && cfg.noReceiverTimeout > 0
          && s.device == s.lonely && s.phone.None?
          && s.lonely.value < |st.peers|
          && (st.peers[s.lonely.value].timer.Armed? || st.peers[s.lonely.value].timer.Fired?))
  }

  ghost predicate PeerOk(cfg: Config, st: State, p: PeerId)
    requires p < |st.peers|
  {
    var me := st.peers[p];
    && me.key == cfg.lower(me.name)
    && (Seated(st, p) ==> !me.task.Departing? && !me.task.Gone?)
    && (!me.timer.NoTimer? ==> me.role.Device?)
    && (me.timer.Evicting? || me.timer.Closing? ==> !Seated(st, p))
  }

  function Pending(phase: Phase): int
  {
    if phase.Cleared? then phase.remaining else 0
  }

  ghost predicate RegistryOk(cfg: Config, st: State)
  {
    && WellFormed(st)
    && (forall k | k in st.sessions :: SessionOk(cfg, st, st.sessions[k]))
    && (forall p | 0 <= p < |st.peers| :: PeerOk(cfg, st, p))
    && st.gauge == |st.sessions| + Pending(st.phase)
    && (st.phase.Cleared? || st.phase.Shut? ==> st.sessions == map[])
  }

  // ----- steps that leave the registry alone -----

  /** The fields fixed at the join. */
  ghost predicate SameIdentity(a: Peer, b: Peer)
  {
    a.role == b.role && a.key == b.key && a.name == b.name && a.served == b.served
  }

  ghost predicate CalmTimer(a: Timer, b: Timer)
  {
    b == a || (a.Armed? && b.Fired?) || (a.Evicting? && b.Closing?) || (a.Closing? && b.Spent?)
  }

  ghost predicate CalmTask(a: Task, b: Task)
  {
    && (b.Departing? || b.Gone? ==> a.Departing? || a.Gone?)
    && (b.Joining? ==> b == a)
  }

  ghost predicate Calm(a: Peer, b: Peer)
  {
    SameIdentity(a, b) && CalmTimer(a.timer, b.timer) && CalmTask(a.task, b.task)
  }

  ghost predicate Quiet(st: State, to: State)
  {
    && to.sessions == st.sessions
    && to.gauge - Pending(to.phase) == st.gauge - Pending(st.phase)
    && (to.phase.Cleared? || to.phase.Shut? ==> st.phase.Cleared? || st.phase.Shut?)
    && to.exits == st.exits && to.pairings == st.pairings
    && |to.peers| == |st.peers|
    && forall i | 0 <= i < |st.peers| :: Calm(st.peers[i], to.peers[i])
  }

  /** The steps that take a region of the lock in which a slot may change hands. */
  ghost predicate Locks(step: Step)
  {
    step.Join? || step.Leave? || step.Expire? || step.Clear?
  }

  /** The steps of writers, and those that touch no peer. */
  ghost predicate Writes(step: Step)
  {
    step.WriteStep? || step.WriteFailStep? || step.TakeCloseStep? || step.FlushEndStep? || step.StopWriterStep?
  }

  lemma WritesView(cfg: Config, st: State, step: Step)
    requires WellFormed(st) && Enabled(st, step) && Writes(step)
    ensures Quiet(st, Next(cfg, st, step))
  {
    hide PeerEnabled;
  }

  lemma FinishJoinView(cfg: Config, st: State, p: PeerId)
    requires WellFormed(st) && Enabled(st, FinishJoin(p))
    ensures Quiet(st, Next(cfg, st, FinishJoin(p)))
  {
    hide JoinLock, LeaveLock, ExpireLock, ClearLock, ForwardLock, RelaySend;
    assert TargetsOk(st.peers, st.peers[p]);
  }

  lemma RelayView(cfg: Config, st: State, p: PeerId)
    requires WellFormed(st) && Enabled(st, Relay(p))
    ensures Quiet(st, RelaySend(cfg, st, p))
  {
    hide JoinLock;
    assert TargetsOk(st.peers, st.peers[p]);
  }

  lemma QuietView(cfg: Config, st: State, step: Step)
    requires WellFormed(st) && Enabled(st, step) && !Locks(step)
    ensures Quiet(st, Next(cfg, st, step))
  {
    hide WellFormed;
    if Writes(step) {
      WritesView(cfg, st, step);
    } else if step.FinishJoin? {
      FinishJoinView(cfg, st, step.p);
    } else if step.Relay? {
      RelayView(cfg, st, step.p);
    }
  }

  lemma QuietKeepsRegistry(cfg: Config, st: State, to: State)
    requires RegistryOk(cfg, st) && Quiet(st, to)
    requires forall p | 0 <= p < |to.peers| :: TargetsOk(to.peers, to.peers[p])
    ensures RegistryOk(cfg, to)
  {
    forall k | k in to.sessions ensures SlotsOk(to.peers, k, to.sessions[k]) && SessionOk(cfg, to, to.sessions[k]) {
      assert SlotsOk(st.peers, k, st.sessions[k]) && SessionOk(cfg, st, st.sessions[k]);
    }
    forall p | 0 <= p < |st.peers| ensures PeerOk(cfg, to, p) {
      assert PeerOk(cfg, st, p) && Calm(st.peers[p], to.peers[p]);
    }
  }

  /** A forward aims at the counterpart it found. */
  lemma ForwardKeepsTarget(st: State, p: PeerId, raw: seq<byte>, i: PeerId)
    requires WellFormed(st) && p < |st.peers| && i < |st.peers|
    ensures TargetsOk(ForwardLock(st, p, raw).peers, ForwardLock(st, p, raw).peers[i])
  {
    assert TargetsOk(st.peers, st.peers[i]);
    if Seated(st, p) {
      assert SlotsOk(st.peers, st.peers[p].key, st.sessions[st.peers[p].key]);
    }
  }

  lemma FinishJoinKeepsTarget(cfg: Config, st: State, p: PeerId, i: PeerId)
    requires WellFormed(st) && Enabled(st, FinishJoin(p)) && i < |st.peers|
    ensures |Next(cfg, st, FinishJoin(p)).peers| == |st.peers|
    ensures TargetsOk(Next(cfg, st, FinishJoin(p)).peers, Next(cfg, st, FinishJoin(p)).peers[i])
  {
    assert TargetsOk(st.peers, st.peers[p]) && TargetsOk(st.peers, st.peers[i]);
  }

  lemma RelayKeepsTarget(cfg: Config, st: State, p: PeerId, i: PeerId)
    requires WellFormed(st) && Enabled(st, Relay(p)) && i < |st.peers|
    ensures |RelaySend(cfg, st, p).peers| == |st.peers|
    ensures TargetsOk(RelaySend(cfg, st, p).peers, RelaySend(cfg, st, p).peers[i])
  {
    assert TargetsOk(st.peers, st.peers[p]) && TargetsOk(st.peers, st.peers[i]);
  }

  lemma OtherKeepsTarget(cfg: Config, st: State, step: Step, p: PeerId)
    requires WellFormed(st) && Enabled(st, step) && !Locks(step) && p < |st.peers|
    requires !step.Forward? && !step.FinishJoin? && !step.Relay?
    ensures |Next(cfg, st, step).peers| == |st.peers|
    ensures TargetsOk(Next(cfg, st, step).peers, Next(cfg, st, step).peers[p])
  {
    hide JoinLock, LeaveLock, ExpireLock, ClearLock, ForwardLock, RelaySend, Close, Send;
    assert TargetsOk(st.peers, st.peers[p]);
  }

  lemma QuietKeepsTarget(cfg: Config, st: State, step: Step, p: PeerId)
    requires WellFormed(st) && Enabled(st, step) && !Locks(step) && p < |st.peers|
    ensures |Next(cfg, st, step).peers| == |st.peers|
    ensures TargetsOk(Next(cfg, st, step).peers, Next(cfg, st, step).peers[p])
  {
    hide JoinLock, LeaveLock, ExpireLock, ClearLock, RelaySend, WellFormed, TargetsOk, PeerEnabled;
    if step.Forward? {
      ForwardKeepsTarget(st, step.p, step.raw, p);
    } else if step.FinishJoin? {
      FinishJoinKeepsTarget(cfg, st, step.p, p);
    } else if step.Relay? {
      RelayKeepsTarget(cfg, st, step.p, p);
    } else {
      OtherKeepsTarget(cfg, st, step, p);
    }
  }

  lemma QuietKeepsTargets(cfg: Config, st: State, step: Step, to: State)
    requires WellFormed(st) && Enabled(st, step) && !Locks(step) && to == Next(cfg, st, step)
    ensures forall p | 0 <= p < |to.peers| :: TargetsOk(to.peers, to.peers[p])
  {
    forall p | 0 <= p < |to.peers| ensures TargetsOk(to.peers, to.peers[p]) {
      QuietView(cfg, st, step);
      QuietKeepsTarget(cfg, st, step, p);
    }
  }
}
