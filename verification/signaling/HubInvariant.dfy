/** The whole invariant of the hub, and the proof that every step keeps it. */
module HubInvariant {
  import opened Protocol
  import opened PeerModel
  import opened HubModel
  import opened HubRegistry
  import opened HubJoin
  import opened HubLeave
  import opened HubStreams

  // ----- conservation of peers -----

  function ExitCount(e: Exits): nat
  {
    e.replaced + e.left + e.expired + e.cleared
  }

  ghost predicate CountOk(st: State)
  {
    |st.peers| == |Occupants(st)| + ExitCount(st.exits)
  }

  // ----- queues, and the goodbye of a lone device -----

  /** A device closed for want of a receiver was offered its bye first, and its queue took it. */
  ghost predicate GoodbyeOk(b: Outbox)
  {
    b.asked == Some(NO_RECEIVER) ==>
      b.mark <= |b.offered| && exists i :: 0 <= i < b.mark && b.offered[i].cause.TimedOut? && b.offered[i].accepted
  }

  ghost predicate BoxOk(cfg: Config, p: Peer)
  {
    && OutboxOk(cfg, p.box)
    && GoodbyeOk(p.box)
    && (p.timer.Closing? ==> HasCause(p.box.offered, TimedOut))
  }

  ghost predicate BoxesOk(cfg: Config, st: State)
  {
    forall p | 0 <= p < |st.peers| :: BoxOk(cfg, st.peers[p])
  }

  // ----- the timer of a lone device -----

  ghost predicate NeverPaired(p: Peer)
  {
    forall i | 0 <= i < |p.box.offered| :: !p.box.offered[i].cause.Paired?
  }

  /** The session holds the timer of its device if that device has been alone since it joined. */
  ghost predicate CoverOk(cfg: Config, st: State, s: Session)
  {
    s.device.Some? && s.phone.None? && cfg.noReceiverTimeout > 0
    && s.device.value < |st.peers| && NeverPaired(st.peers[s.device.value]) ==>
      s.lonely == s.device
  }

  ghost predicate CoverageOk(cfg: Config, st: State)
  {
    forall k | k in st.sessions :: CoverOk(cfg, st, st.sessions[k])
  }

  ghost predicate Inv(cfg: Config, st: State)
  {
    RegistryOk(cfg, st) && StreamsOk(cfg, st) && BoxesOk(cfg, st) && CountOk(st) && CoverageOk(cfg, st)
  }

  // ----- boxes -----

  lemma ReasonsDiffer(role: Role)
    ensures BUFFER_FULL != NO_RECEIVER && ReplacedReason(role) != NO_RECEIVER
  {
    assert BUFFER_FULL[0] == 's' && NO_RECEIVER[0] == 'n';
    assert ReplacedReason(role)[0] == 'r';
  }

  lemma SendKeepsBox(cfg: Config, p: Peer, frame: Frame, cause: Cause)
    requires BoxOk(cfg, p)
    ensures BoxOk(cfg, p.(box := Send(cfg, p.box, frame, cause)))
    ensures Send(cfg, p.box, frame, cause).offered
         == p.box.offered + [Offer(frame, cause, |p.box.queue| < cfg.sendBuffer)]
  {
    SendKeepsOutbox(cfg, p.box, frame, cause);
    ReasonsDiffer(Device);
    var now := Send(cfg, p.box, frame, cause);
    if now.asked == Some(NO_RECEIVER) {
      var i :| 0 <= i < p.box.mark && p.box.offered[i].cause.TimedOut? && p.box.offered[i].accepted;
      assert now.offered[i] == p.box.offered[i];
    }
    if p.timer.Closing? {
      HasCauseGrows(p.box.offered, now.offered, TimedOut);
    }
  }

  lemma CloseKeepsBox(cfg: Config, p: Peer, role: Role)
    requires BoxOk(cfg, p)
    ensures BoxOk(cfg, p.(box := Close(p.box, ReplacedReason(role))))
  {
    CloseKeepsOutbox(cfg, p.box, ReplacedReason(role));
    ReasonsDiffer(role);
  }

  /** The close that follows the bye of an expiry. */
  lemma EvictKeepsBox(cfg: Config, p: Peer)
    requires BoxOk(cfg, p) && p.timer.Closing?
    ensures BoxOk(cfg, p.(box := Close(p.box, NO_RECEIVER), timer := Spent))
  {
    CloseKeepsOutbox(cfg, p.box, NO_RECEIVER);
    var i :| 0 <= i < |p.box.offered| && p.box.offered[i].cause == TimedOut;
    if p.box.asked.None? {
      assert p.box.offered[i].accepted;
    }
  }

  lemma WriterKeepsBox(cfg: Config, p: Peer, step: Step)
    requires BoxOk(cfg, p) && PeerEnabled(p, step)
    ensures step.WriteStep? ==> BoxOk(cfg, p.(box := Write(p.box)))
    ensures step.WriteFailStep? ==> BoxOk(cfg, p.(box := WriteFail(p.box)))
    ensures step.TakeCloseStep? ==> BoxOk(cfg, p.(box := TakeClose(p.box)))
    ensures step.FlushEndStep? ==> BoxOk(cfg, p.(box := FlushEnd(p.box)))
    ensures step.StopWriterStep? ==> BoxOk(cfg, p.(box := StopWriter(p.box)))
  {
    hide OutboxOk, HasCause;
    if step.WriteStep? {
      WriteKeepsOutbox(cfg, p.box);
    } else if step.WriteFailStep? {
      WriteFailKeepsOutbox(cfg, p.box);
    } else if step.TakeCloseStep? {
      TakeCloseKeepsOutbox(cfg, p.box);
    } else if step.FlushEndStep? {
      FlushEndKeepsOutbox(cfg, p.box);
    } else if step.StopWriterStep? {
      StopWriterKeepsOutbox(cfg, p.box);
    }
  }

  lemma FinishJoinKeepsBoxes(cfg: Config, st: State, p: PeerId)
    requires WellFormed(st) && BoxesOk(cfg, st) && Enabled(st, FinishJoin(p))
    ensures BoxesOk(cfg, Next(cfg, st, FinishJoin(p)))
  {
    assert TargetsOk(st.peers, st.peers[p]);
    if st.peers[p].task.replaced.Some? {
      CloseKeepsBox(cfg, st.peers[st.peers[p].task.replaced.value], st.peers[p].role);
    }
  }

  lemma RelayKeepsBoxes(cfg: Config, st: State, p: PeerId)
    requires WellFormed(st) && BoxesOk(cfg, st) && Enabled(st, Relay(p))
    ensures BoxesOk(cfg, Next(cfg, st, Relay(p)))
  {
    assert TargetsOk(st.peers, st.peers[p]);
    var act := Last(st.peers[p]);
    SendKeepsBox(cfg, st.peers[act.to.value], act.frame, Relayed(p, |st.peers[p].acts| - 1));
  }

  lemma ExpireSendKeepsBoxes(cfg: Config, st: State, p: PeerId)
    requires WellFormed(st) && BoxesOk(cfg, st) && Enabled(st, ExpireSend(p))
    ensures BoxesOk(cfg, Next(cfg, st, ExpireSend(p)))
  {
    SendKeepsBox(cfg, st.peers[p], Bye, TimedOut);
    var was, now := st.peers[p].box.offered, Send(cfg, st.peers[p].box, Bye, TimedOut).offered;
    assert now[|was|].cause == TimedOut;
  }

  lemma ExpireCloseKeepsBoxes(cfg: Config, st: State, p: PeerId)
    requires WellFormed(st) && BoxesOk(cfg, st) && Enabled(st, ExpireClose(p))
    ensures BoxesOk(cfg, Next(cfg, st, ExpireClose(p)))
  {
    hide OutboxOk, GoodbyeOk, JoinLock, LeaveLock, ExpireLock, ClearLock, ForwardLock, RelaySend, Close;
    EvictKeepsBox(cfg, st.peers[p]);
  }

  lemma WritesKeepBoxes(cfg: Config, st: State, step: Step)
    requires WellFormed(st) && BoxesOk(cfg, st) && Enabled(st, step) && Writes(step)
    ensures BoxesOk(cfg, Next(cfg, st, step))
  {
    hide BoxOk, JoinLock, LeaveLock, ExpireLock, ClearLock, ForwardLock, RelaySend;
    WriterKeepsBox(cfg, st.peers[step.p], step);
  }

  /** The steps that touch no queue. */
  lemma RestKeepsBoxes(cfg: Config, st: State, step: Step)
    requires WellFormed(st) && BoxesOk(cfg, st) && Enabled(st, step)
    requires step.Forward? || step.EndRead? || step.Fire? || step.BeginClose? || step.FixGauge?
    ensures BoxesOk(cfg, Next(cfg, st, step))
  {
    hide OutboxOk, GoodbyeOk, HasCause, JoinLock, LeaveLock, ExpireLock, ClearLock, RelaySend;
  }

  lemma QuietKeepsBoxes(cfg: Config, st: State, step: Step)
    requires WellFormed(st) && BoxesOk(cfg, st) && Enabled(st, step) && !Locks(step)
    ensures BoxesOk(cfg, Next(cfg, st, step))
  {
    hide BoxesOk, Next, PeerEnabled;
    if step.FinishJoin? {
      FinishJoinKeepsBoxes(cfg, st, step.p);
    } else if step.Relay? {
      RelayKeepsBoxes(cfg, st, step.p);
    } else if step.ExpireSend? {
      ExpireSendKeepsBoxes(cfg, st, step.p);
    } else if step.ExpireClose? {
      ExpireCloseKeepsBoxes(cfg, st, step.p);
    } else if Writes(step) {
      WritesKeepBoxes(cfg, st, step);
    } else {
      RestKeepsBoxes(cfg, st, step);
    }
  }

  lemma GuestBox(cfg: Config, a: Arrival, name: string, served: bool)
    ensures BoxOk(cfg, Guest(cfg, a, name, served))
  {
    var me := NewPeer(a.role, a.key, name, served, a.replaced);
    SendKeepsBox(cfg, me, Joined, Welcome);
    if a.other.Some? {
      SendKeepsBox(cfg, me.(box := Send(cfg, EMPTY_BOX, Joined, Welcome)),
                   ReadyFrame(cfg, PairOf(a).token, a.role.Phone?), Paired(PairOf(a).device, PairOf(a).phone));
    }
  }

  lemma HostBox(cfg: Config, a: Arrival, i: PeerId, me: Peer)
    requires BoxOk(cfg, me)
    ensures BoxOk(cfg, Host(cfg, a, i, me))
  {
    hide OutboxOk, Send, ReadyFrame;
    if a.other == Some(i) {
      var pair := PairOf(a);
      SendKeepsBox(cfg, me, ReadyFrame(cfg, pair.token, me.role.Phone?), Paired(pair.device, pair.phone));
    }
  }

  lemma AdmittedKeepsBoxes(cfg: Config, st: State, to: State, a: Arrival, name: string, served: bool)
    requires BoxesOk(cfg, st) && Admitted(cfg, st, to, a, name, served)
    ensures BoxesOk(cfg, to)
  {
    hide BoxOk, Host, Guest;
    GuestBox(cfg, a, name, served);
    forall i | 0 <= i < a.p ensures BoxOk(cfg, to.peers[i]) {
      assert to.peers[i] == Host(cfg, a, i, st.peers[i]);
      HostBox(cfg, a, i, st.peers[i]);
    }
  }

  lemma AnnounceKeepsBoxes(cfg: Config, st: State, joiner: PeerId, session: string)
    requires BoxesOk(cfg, st)
    ensures BoxesOk(cfg, Announce(cfg, st, joiner, session))
  {
    var to := Announce(cfg, st, joiner, session);
    forall i | 0 <= i < |to.peers| ensures BoxOk(cfg, to.peers[i]) {
      SendKeepsBox(cfg, st.peers[i], RemoteJoined(session), Announced(joiner));
    }
  }

  lemma LeaveKeepsBoxes(cfg: Config, st: State, p: PeerId)
    requires WellFormed(st) && BoxesOk(cfg, st) && p < |st.peers|
    ensures BoxesOk(cfg, LeaveLock(st, p))
  {
    LeaveView(st, p);
  }

  lemma ExpireKeepsBoxes(cfg: Config, st: State, d: PeerId)
    requires BoxesOk(cfg, st) && d < |st.peers|
    ensures BoxesOk(cfg, ExpireLock(st, d))
  {
    ExpireView(st, d);
  }

  lemma ClearKeepsBoxes(cfg: Config, st: State)
    requires BoxesOk(cfg, st)
    ensures BoxesOk(cfg, ClearLock(st))
  {
  }

  // ----- conservation -----

  lemma SameOccupants(a: State, b: State)
    requires |a.peers| == |b.peers| && forall p | 0 <= p < |a.peers| :: Seated(a, p) == Seated(b, p)
    ensures Occupants(a) == Occupants(b)
  {
  }

  lemma QuietKeepsCount(st: State, to: State)
    requires CountOk(st) && Quiet(st, to)
    ensures CountOk(to)
  {
    forall p | 0 <= p < |st.peers| ensures Seated(st, p) == Seated(to, p) {
      assert Calm(st.peers[p], to.peers[p]);
    }
    SameOccupants(st, to);
  }

  /** A join unseats the peer it replaces and nobody else. */
  lemma AdmittedSeats(cfg: Config, st: State, to: State, a: Arrival, name: string, served: bool, i: PeerId)
    requires RegistryOk(cfg, st) && Sensible(st, a) && Fits(cfg, st, a, name)
    requires Admitted(cfg, st, to, a, name, served) && i <= a.p
    ensures Seated(to, i) == (i == a.p || (Seated(st, i) && a.replaced != Some(i)))
  {
    HostsSettle(cfg, st, to, a, name, served);
    if i < a.p {
      var me := st.peers[i];
      assert to.peers[i].key == me.key && to.peers[i].role == me.role;
      if me.key == a.key && a.key in st.sessions {
        assert SlotsOk(st.peers, a.key, st.sessions[a.key]);
      }
    }
  }

  lemma AdmittedKeepsCount(cfg: Config, st: State, to: State, a: Arrival, name: string, served: bool)
    requires RegistryOk(cfg, st) && CountOk(st) && Sensible(st, a) && Fits(cfg, st, a, name)
    requires Admitted(cfg, st, to, a, name, served)
    ensures CountOk(to)
  {
    forall i | 0 <= i <= a.p ensures Seated(to, i) == (i == a.p || (Seated(st, i) && a.replaced != Some(i))) {
      AdmittedSeats(cfg, st, to, a, name, served, i);
    }
    if a.replaced.Some? { ReplacedWasSeated(cfg, st, a, name); }
    JoinedCount(st, to, a.replaced);
  }

  lemma JoinedCount(st: State, to: State, replaced: Option<PeerId>)
    requires CountOk(st) && |to.peers| == |st.peers| + 1
    requires ExitCount(to.exits) == ExitCount(st.exits) + if replaced.Some? then 1 else 0
    requires replaced.Some? ==> Seated(st, replaced.value)
    requires forall i | 0 <= i <= |st.peers| ::
               Seated(to, i) == (i == |st.peers| || (Seated(st, i) && replaced != Some(i)))
    ensures CountOk(to)
  {
    var p, out := |st.peers|, if replaced.Some? then {replaced.value} else {};
    var a, b := Occupants(st), Occupants(to);
    forall i ensures i in b <==> i in (a - out) + {p} { }
    SeatsMove(a, b, out, p);
  }

  lemma SeatsMove(a: set<PeerId>, b: set<PeerId>, out: set<PeerId>, p: PeerId)
    requires out <= a && p !in a && forall i :: i in b <==> i in (a - out) + {p}
    ensures |b| == |a| - |out| + 1
  {
    assert b == (a - out) + {p};
  }

  lemma ReplacedWasSeated(cfg: Config, st: State, a: Arrival, name: string)
    requires RegistryOk(cfg, st) && Fits(cfg, st, a, name) && a.replaced.Some?
    ensures Seated(st, a.replaced.value)
  {
    assert SlotsOk(st.peers, a.key, st.sessions[a.key]);
  }

  lemma VacatedKeepsCount(st: State, to: State, p: PeerId)
    requires CountOk(st) && |st.peers| == |to.peers| && Seated(st, p)
    requires ExitCount(to.exits) == ExitCount(st.exits) + 1
    requires forall i | 0 <= i < |st.peers| :: Seated(to, i) == (Seated(st, i) && i != p)
    ensures CountOk(to)
  {
    assert Occupants(to) == Occupants(st) - {p};
  }

  lemma LeftKeepsCount(cfg: Config, st: State, to: State, p: PeerId)
    requires RegistryOk(cfg, st) && CountOk(st) && Seated(st, p) && Left(st, to, p)
    ensures CountOk(to)
  {
    hide SessionOk, PeerOk;
    var key := st.peers[p].key;
    assert SlotsOk(st.peers, key, st.sessions[key]);
    forall i | 0 <= i < |st.peers| ensures Seated(to, i) == (Seated(st, i) && i != p) {
      if i != p { assert SameIdentity(st.peers[i], to.peers[i]); }
    }
    VacatedKeepsCount(st, to, p);
  }

  lemma EvictedKeepsCount(cfg: Config, st: State, to: State, d: PeerId)
    requires RegistryOk(cfg, st) && CountOk(st) && Expires(st, d) && Evicted(st, to, d)
    ensures CountOk(to)
  {
    var key := st.peers[d].key;
    assert SlotsOk(st.peers, key, st.sessions[key]);
    VacatedKeepsCount(st, to, d);
  }

  lemma ClearKeepsCount(st: State)
    requires CountOk(st)
    ensures CountOk(ClearLock(st))
  {
    assert Occupants(ClearLock(st)) == {};
  }

  // ----- coverage -----

  lemma NeverPairedBefore(a: Peer, b: Peer)
    requires NeverPaired(b) && a.box.offered <= b.box.offered
    ensures NeverPaired(a)
  {
    forall i | 0 <= i < |a.box.offered| ensures !a.box.offered[i].cause.Paired? {
      assert a.box.offered[i] == b.box.offered[i];
    }
  }

  lemma UneventfulKeepsCoverage(cfg: Config, st: State, to: State)
    requires CoverageOk(cfg, st) && to.sessions == st.sessions && |to.peers| == |st.peers|
    requires forall i | 0 <= i < |st.peers| :: st.peers[i].box.offered <= to.peers[i].box.offered
    ensures CoverageOk(cfg, to)
  {
    forall k | k in to.sessions ensures CoverOk(cfg, to, to.sessions[k]) {
      var s := st.sessions[k];
      assert CoverOk(cfg, st, s);
      if s.device.Some? && s.device.value < |st.peers| && NeverPaired(to.peers[s.device.value]) {
        NeverPairedBefore(st.peers[s.device.value], to.peers[s.device.value]);
      }
    }
  }

  lemma AdmittedKeepsCoverage(cfg: Config, st: State, to: State, a: Arrival, name: string, served: bool)
    requires RegistryOk(cfg, st) && CoverageOk(cfg, st) && Sensible(st, a) && Fits(cfg, st, a, name)
    requires Admitted(cfg, st, to, a, name, served)
    ensures CoverageOk(cfg, to)
  {
    if a.key in st.sessions {
      assert SlotsOk(st.peers, a.key, st.sessions[a.key]) && SessionOk(cfg, st, st.sessions[a.key]);
    }
    forall k | k in to.sessions ensures CoverOk(cfg, to, to.sessions[k]) {
      if k != a.key {
        var s := st.sessions[k];
        assert CoverOk(cfg, st, s) && SlotsOk(st.peers, k, s);
        if s.device.Some? {
          HostGrows(cfg, a, s.device.value, st.peers[s.device.value]);
          assert to.peers[s.device.value] == Host(cfg, a, s.device.value, st.peers[s.device.value]);
          if NeverPaired(to.peers[s.device.value]) {
            NeverPairedBefore(st.peers[s.device.value], to.peers[s.device.value]);
          }
        }
      }
    }
  }

  /** A device left behind by its phone has been offered a ready, so it needs no timer. */
  lemma LeftKeepsCover(cfg: Config, st: State, to: State, p: PeerId, k: string)
    requires Seated(st, p) && Left(st, to, p) && k in st.sessions && k in to.sessions
    requires CoverOk(cfg, st, st.sessions[k]) && CoupleOk(st.peers, st.sessions[k])
    requires SlotsOk(st.peers, k, st.sessions[k])
    ensures CoverOk(cfg, to, to.sessions[k])
  {
    var s := st.sessions[k];
    if k == st.peers[p].key && s.device.Some? && s.phone.Some? {
      var d := s.device.value;
      var i :| 0 <= i < |st.peers[d].box.offered| && st.peers[d].box.offered[i].cause == Paired(d, s.phone.value);
      assert to.peers[d].box == st.peers[d].box;
      assert to.peers[d].box.offered[i].cause.Paired?;
    } else if s.device.Some? {
      assert to.peers[s.device.value].box == st.peers[s.device.value].box;
    }
  }

  lemma LeftKeepsCoverage(cfg: Config, st: State, to: State, p: PeerId)
    requires RegistryOk(cfg, st) && StreamsOk(cfg, st) && CoverageOk(cfg, st) && Seated(st, p) && Left(st, to, p)
    ensures CoverageOk(cfg, to)
  {
    hide CoverOk, CoupleOk, SlotsOk, SessionOk, PeerOk;
    forall k | k in to.sessions ensures CoverOk(cfg, to, to.sessions[k]) {
      assert CoverOk(cfg, st, st.sessions[k]) && SlotsOk(st.peers, k, st.sessions[k]);
      assert CoupleOk(st.peers, st.sessions[k]);
      LeftKeepsCover(cfg, st, to, p, k);
    }
  }
}
