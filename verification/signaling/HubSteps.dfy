/** Every step of the hub keeps the whole invariant. */
module HubSteps {
  import opened Protocol
  import opened PeerModel
  import opened HubModel
  import opened HubRegistry
  import opened HubJoin
  import opened HubLeave
  import opened HubStreams
  import opened HubInvariant

  ghost predicate Grows(st: State, to: State)
  {
    && |st.peers| <= |to.peers|
    && forall i | 0 <= i < |st.peers| :: st.peers[i].box.offered <= to.peers[i].box.offered
  }

  /** The steps that neither act nor relay. */
  ghost predicate Silent(step: Step)
  {
    !Locks(step) && !step.Forward? && !step.Relay?
  }

  lemma SendNeutral(cfg: Config, b: Outbox, frame: Frame, cause: Cause)
    ensures Send(cfg, b, frame, cause).offered
         == b.offered + [Offer(frame, cause, |b.queue| < cfg.sendBuffer)]
  {
  }

  lemma FinishedPeer(cfg: Config, st: State, p: PeerId, i: PeerId)
    requires WellFormed(st) && Enabled(st, FinishJoin(p)) && i < |st.peers|
    ensures var to := Next(cfg, st, FinishJoin(p));
            && |to.peers| == |st.peers|
            && to.peers[i].acts == st.peers[i].acts && InFlight(to.peers[i]) == InFlight(st.peers[i])
            && to.peers[i].box.offered == st.peers[i].box.offered
  {
    hide JoinLock, LeaveLock, ExpireLock, ClearLock, ForwardLock, RelaySend;
    assert TargetsOk(st.peers, st.peers[p]);
  }

  lemma SilentPeer(cfg: Config, st: State, step: Step, i: PeerId)
    requires WellFormed(st) && Enabled(st, step) && Silent(step) && i < |st.peers|
    ensures var to := Next(cfg, st, step);
            && |to.peers| == |st.peers|
            && to.peers[i].acts == st.peers[i].acts && InFlight(to.peers[i]) == InFlight(st.peers[i])
            && to.peers[i].box.offered == st.peers[i].box.offered
                 + if step == ExpireSend(i) then [Offer(Bye, TimedOut, |st.peers[i].box.queue| < cfg.sendBuffer)]
                   else []
  {
    hide JoinLock, LeaveLock, ExpireLock, ClearLock, ForwardLock, RelaySend;
    var offered := st.peers[i].box.offered;
    assert offered + [] == offered;
    if step.FinishJoin? {
      FinishedPeer(cfg, st, step.p, i);
    }
  }

  lemma SilentIsUneventful(cfg: Config, st: State, step: Step)
    requires WellFormed(st) && Enabled(st, step) && Silent(step)
    ensures Uneventful(st, Next(cfg, st, step)) && Grows(st, Next(cfg, st, step))
  {
    var to := Next(cfg, st, step);
    QuietView(cfg, st, step);
    SilentGrows(cfg, st, step, to);
  }

  lemma SilentGrows(cfg: Config, st: State, step: Step, to: State)
    requires WellFormed(st) && Enabled(st, step) && Silent(step) && to == Next(cfg, st, step) && Quiet(st, to)
    ensures Uneventful(st, to) && Grows(st, to)
  {
    hide Next;
    forall i | 0 <= i < |st.peers|
      ensures SameIdentity(st.peers[i], to.peers[i]) && NeutralGrowth(st.peers, to.peers, i)
      ensures to.peers[i].acts == st.peers[i].acts && InFlight(to.peers[i]) == InFlight(st.peers[i])
      ensures st.peers[i].box.offered <= to.peers[i].box.offered
    {
      SilentPeer(cfg, st, step, i);
      assert Calm(st.peers[i], to.peers[i]);
      if step != ExpireSend(i) {
        assert to.peers[i].box.offered == st.peers[i].box.offered;
      }
    }
  }

  lemma ForwardIsActed(cfg: Config, st: State, p: PeerId, raw: seq<byte>)
    requires RegistryOk(cfg, st) && StreamsOk(cfg, st) && p < |st.peers| && st.peers[p].task.Idle?
    ensures var other := if Seated(st, p) then Counterpart(st, p) else None;
            Acted(st, ForwardLock(st, p, raw), p, Act(Raw(raw), other))
  {
    if Seated(st, p) {
      LookupFindsPartner(cfg, st, p, Raw(raw));
    }
  }

  lemma RelayIsDelivered(cfg: Config, st: State, p: PeerId)
    requires WellFormed(st) && p < |st.peers| && InFlight(st.peers[p])
    ensures var act := Last(st.peers[p]);
            && act.to.Some? && act.to.value < |st.peers|
            && Delivered(st, RelaySend(cfg, st, p), p,
                         Offer(act.frame, Relayed(p, |st.peers[p].acts| - 1),
                               |st.peers[act.to.value].box.queue| < cfg.sendBuffer))
  {
    assert TargetsOk(st.peers, st.peers[p]);
    var act := Last(st.peers[p]);
    SendNeutral(cfg, st.peers[act.to.value].box, act.frame, Relayed(p, |st.peers[p].acts| - 1));
  }

  lemma QuietKeepsStreams(cfg: Config, st: State, step: Step)
    requires RegistryOk(cfg, st) && StreamsOk(cfg, st) && Enabled(st, step) && !Locks(step)
    ensures StreamsOk(cfg, Next(cfg, st, step)) && Grows(st, Next(cfg, st, step))
  {
    hide JoinLock, LeaveLock, ExpireLock, ClearLock, StreamsOk;
    if step.Forward? {
      ForwardIsActed(cfg, st, step.p, step.raw);
      var other := if Seated(st, step.p) then Counterpart(st, step.p) else None;
      ActedKeepsStreams(cfg, st, ForwardLock(st, step.p, step.raw), step.p, Act(Raw(step.raw), other));
    } else if step.Relay? {
      RelayIsDelivered(cfg, st, step.p);
      var act := Last(st.peers[step.p]);
      DeliveredKeepsStreams(cfg, st, RelaySend(cfg, st, step.p), step.p,
                            Offer(act.frame, Relayed(step.p, |st.peers[step.p].acts| - 1),
                                  |st.peers[act.to.value].box.queue| < cfg.sendBuffer));
    } else {
      SilentIsUneventful(cfg, st, step);
      UneventfulKeepsStreams(cfg, st, Next(cfg, st, step));
    }
  }

  lemma QuietKeepsInv(cfg: Config, st: State, step: Step)
    requires Inv(cfg, st) && Enabled(st, step) && !Locks(step)
    ensures Inv(cfg, Next(cfg, st, step)) && Grows(st, Next(cfg, st, step))
  {
    hide Next;
    var to := Next(cfg, st, step);
    QuietView(cfg, st, step);
    QuietKeepsTargets(cfg, st, step, to);
    QuietKeepsRegistry(cfg, st, to);
    QuietKeepsStreams(cfg, st, step);
    QuietKeepsBoxes(cfg, st, step);
    QuietKeepsCount(st, to);
    UneventfulKeepsCoverage(cfg, st, to);
  }

  // ----- join -----

  lemma AnnounceIsUneventful(cfg: Config, st: State, joiner: PeerId)
    requires joiner < |st.peers|
    ensures var to := Announce(cfg, st, joiner, st.peers[joiner].name);
            Uneventful(st, to) && Grows(st, to) && Quiet(st, to)
  {
    AnnounceView(cfg, st, joiner, st.peers[joiner].name);
    var to := Announce(cfg, st, joiner, st.peers[joiner].name);
    forall i | 0 <= i < |st.peers|
      ensures NeutralGrowth(st.peers, to.peers, i) && Calm(st.peers[i], to.peers[i])
      ensures to.peers[i].acts == st.peers[i].acts && InFlight(to.peers[i]) == InFlight(st.peers[i])
      ensures st.peers[i].box.offered <= to.peers[i].box.offered
    {
      SendNeutral(cfg, st.peers[i].box, RemoteJoined(st.peers[joiner].name), Announced(joiner));
    }
  }

  lemma AnnounceKeepsInv(cfg: Config, st: State, joiner: PeerId)
    requires Inv(cfg, st) && joiner < |st.peers|
    ensures var to := Announce(cfg, st, joiner, st.peers[joiner].name);
            Inv(cfg, to) && Grows(st, to)
  {
    var to := Announce(cfg, st, joiner, st.peers[joiner].name);
    AnnounceIsUneventful(cfg, st, joiner);
    AnnounceView(cfg, st, joiner, st.peers[joiner].name);
    forall p | 0 <= p < |to.peers| ensures TargetsOk(to.peers, to.peers[p]) {
      assert TargetsOk(st.peers, st.peers[p]);
    }
    QuietKeepsRegistry(cfg, st, to);
    UneventfulKeepsStreams(cfg, st, to);
    AnnounceKeepsBoxes(cfg, st, joiner, st.peers[joiner].name);
    QuietKeepsCount(st, to);
    UneventfulKeepsCoverage(cfg, st, to);
  }

  lemma AdmitKeepsInv(cfg: Config, st: State, m: JoinMessage, token: string, served: bool)
    requires Inv(cfg, st) && st.phase.Open? && CheckJoin(m).None?
    ensures var to := Admit(cfg, st, m, token, served);
            && Inv(cfg, to) && Grows(st, to) && |to.peers| == |st.peers| + 1
            && to.peers[|st.peers|].name == m.session
  {
    AdmitView(cfg, st, m, token, served);
    ArriveSensible(cfg, st, m, token);
    AdmittedKeepsInv(cfg, st, Admit(cfg, st, m, token, served), Arrive(cfg, st, m, token), m.session, served);
  }

  lemma AdmittedKeepsInv(cfg: Config, st: State, to: State, a: Arrival, name: string, served: bool)
    requires Inv(cfg, st) && st.phase.Open? && Sensible(st, a) && Fits(cfg, st, a, name)
    requires Admitted(cfg, st, to, a, name, served)
    ensures Inv(cfg, to) && Grows(st, to) && |to.peers| == |st.peers| + 1 && to.peers[|st.peers|].name == name
  {
    AdmittedKeepsRegistry(cfg, st, to, a, name, served);
    AdmittedKeepsStreams(cfg, st, to, a, name, served);
    AdmittedKeepsBoxes(cfg, st, to, a, name, served);
    AdmittedKeepsCount(cfg, st, to, a, name, served);
    AdmittedKeepsCoverage(cfg, st, to, a, name, served);
    AdmittedGrows(cfg, st, to, a, name, served);
  }

  lemma AdmittedGrows(cfg: Config, st: State, to: State, a: Arrival, name: string, served: bool)
    requires Admitted(cfg, st, to, a, name, served)
    ensures Grows(st, to) && to.peers[|st.peers|].name == name
  {
    forall i | 0 <= i < |st.peers| ensures st.peers[i].box.offered <= to.peers[i].box.offered {
      HostGrows(cfg, a, i, st.peers[i]);
    }
  }

  // ----- leave, expiry, close -----

  lemma LeaveKeepsInv(cfg: Config, st: State, p: PeerId)
    requires Inv(cfg, st) && Enabled(st, Leave(p))
    ensures Inv(cfg, LeaveLock(st, p)) && Grows(st, LeaveLock(st, p))
  {
    LeaveView(st, p);
    LeaveKeepsBoxes(cfg, st, p);
    if Seated(st, p) {
      LeftKeepsInv(cfg, st, LeaveLock(st, p), p);
    } else {
      GoneKeepsInv(cfg, st, LeaveLock(st, p), p);
    }
  }

  lemma LeftKeepsInv(cfg: Config, st: State, to: State, p: PeerId)
    requires Inv(cfg, st) && Seated(st, p) && Left(st, to, p) && !InFlight(st.peers[p]) && BoxesOk(cfg, to)
    ensures Inv(cfg, to) && Grows(st, to)
  {
    LeftKeepsRegistry(cfg, st, to, p);
    LeftIsActed(cfg, st, to, p);
    ActedKeepsStreams(cfg, st, to, p, Act(Bye, Counterpart(st, p)));
    LeftKeepsCount(cfg, st, to, p);
    LeftKeepsCoverage(cfg, st, to, p);
  }

  /** A step that touches neither a queue nor a session. */
  ghost predicate Inward(st: State, to: State)
  {
    && to.sessions == st.sessions && to.pairings == st.pairings && to.exits == st.exits
    && |to.peers| == |st.peers|
    && forall i | 0 <= i < |st.peers| :: SameView(st.peers[i], to.peers[i])
  }

  /** Only the timer and the kind of settled task may differ. */
  ghost predicate SameView(a: Peer, b: Peer)
  {
    SameIdentity(a, b) && b.acts == a.acts && b.box == a.box && InFlight(a) == InFlight(b)
  }

  lemma InwardIsUneventful(st: State, to: State)
    requires Inward(st, to)
    ensures Uneventful(st, to)
  {
  }

  lemma InwardKeepsInv(cfg: Config, st: State, to: State)
    requires Inv(cfg, st) && Inward(st, to) && RegistryOk(cfg, to) && BoxesOk(cfg, to)
    ensures Inv(cfg, to) && Grows(st, to)
  {
    InwardIsUneventful(st, to);
    UneventfulKeepsStreams(cfg, st, to);
    SameOccupants(st, to);
    UneventfulKeepsCoverage(cfg, st, to);
  }

  lemma GoneKeepsInv(cfg: Config, st: State, to: State, p: PeerId)
    requires Inv(cfg, st) && p < |st.peers| && !Seated(st, p) && !InFlight(st.peers[p]) && BoxesOk(cfg, to)
    requires to == SetPeer(st, p, st.peers[p].(task := Gone))
    ensures Inv(cfg, to) && Grows(st, to)
  {
    hide WellFormed, RegistryOk, StreamsOk;
    GoneKeepsRegistry(cfg, st, p);
    assert Inward(st, to);
    InwardKeepsInv(cfg, st, to);
  }

  lemma LeftIsActed(cfg: Config, st: State, to: State, p: PeerId)
    requires RegistryOk(cfg, st) && StreamsOk(cfg, st)
    requires Seated(st, p) && Left(st, to, p) && !InFlight(st.peers[p])
    ensures Acted(st, to, p, Act(Bye, Counterpart(st, p)))
  {
    hide RegistryOk, StreamsOk, SessionOk, Seated;
    LookupFindsPartner(cfg, st, p, Bye);
  }

  lemma ExpireKeepsInv(cfg: Config, st: State, d: PeerId)
    requires Inv(cfg, st) && Enabled(st, Expire(d))
    ensures Inv(cfg, ExpireLock(st, d)) && Grows(st, ExpireLock(st, d))
  {
    ExpireView(st, d);
    ExpireKeepsBoxes(cfg, st, d);
    if Expires(st, d) {
      EvictedKeepsInv(cfg, st, ExpireLock(st, d), d);
    } else {
      SpentKeepsInv(cfg, st, ExpireLock(st, d), d);
    }
  }

  lemma SpentKeepsInv(cfg: Config, st: State, to: State, d: PeerId)
    requires Inv(cfg, st) && d < |st.peers| && st.peers[d].timer.Fired? && !Expires(st, d) && BoxesOk(cfg, to)
    requires to == SetPeer(st, d, st.peers[d].(timer := Spent))
    ensures Inv(cfg, to) && Grows(st, to)
  {
    SpentKeepsRegistry(cfg, st, d);
    assert Inward(st, to);
    InwardKeepsInv(cfg, st, to);
  }

  lemma EvictedKeepsInv(cfg: Config, st: State, to: State, d: PeerId)
    requires Inv(cfg, st) && Expires(st, d) && st.peers[d].timer.Fired? && Evicted(st, to, d) && BoxesOk(cfg, to)
    ensures Inv(cfg, to) && Grows(st, to)
  {
    hide WellFormed, RegistryOk;
    ClosedHasNoSessions(cfg, st);
    EvictedKeepsRegistry(cfg, st, to, d);
    EvictedIsUneventful(st, to, d);
    UneventfulKeepsStreams(cfg, st, to);
    EvictedKeepsCount(cfg, st, to, d);
    forall k | k in to.sessions ensures CoverOk(cfg, to, to.sessions[k]) {
      assert CoverOk(cfg, st, st.sessions[k]);
    }
  }

  lemma EvictedIsUneventful(st: State, to: State, d: PeerId)
    requires Expires(st, d) && Evicted(st, to, d)
    ensures Uneventful(st, to) && Grows(st, to)
  {
  }

  lemma ClosedHasNoSessions(cfg: Config, st: State)
    requires RegistryOk(cfg, st)
    ensures st.sessions != map[] ==> !st.phase.Cleared? && !st.phase.Shut?
  {
  }

  lemma ClearKeepsInv(cfg: Config, st: State)
    requires Inv(cfg, st) && Enabled(st, Clear)
    ensures Inv(cfg, ClearLock(st)) && Grows(st, ClearLock(st))
  {
    var to := ClearLock(st);
    ClearKeepsRegistry(cfg, st);
    ClearKeepsBoxes(cfg, st);
    ClearIsUneventful(cfg, st);
    UneventfulKeepsStreams(cfg, st, to);
    ClearKeepsCount(st);
  }

  lemma ClearIsUneventful(cfg: Config, st: State)
    requires RegistryOk(cfg, st)
    ensures Uneventful(st, ClearLock(st)) && Grows(st, ClearLock(st))
  {
  }

  lemma JoinKeepsInv(cfg: Config, st: State, m: JoinMessage, token: string, served: bool)
    requires Inv(cfg, st) && Enabled(st, Join(m, token, served))
    ensures var to := JoinLock(cfg, st, m, token, served); Inv(cfg, to) && Grows(st, to)
  {
    var mid := Admit(cfg, st, m, token, served);
    AdmitKeepsInv(cfg, st, m, token, served);
    AnnounceKeepsInv(cfg, mid, |st.peers|);
    GrowsOn(st, mid, Announce(cfg, mid, |st.peers|, mid.peers[|st.peers|].name));
  }

  lemma GrowsOn(a: State, b: State, c: State)
    requires Grows(a, b) && Grows(b, c)
    ensures Grows(a, c)
  {
    forall i | 0 <= i < |a.peers| ensures a.peers[i].box.offered <= c.peers[i].box.offered {
      assert a.peers[i].box.offered <= b.peers[i].box.offered <= c.peers[i].box.offered;
    }
  }

  lemma LockKeepsInv(cfg: Config, st: State, step: Step)
    requires Inv(cfg, st) && Enabled(st, step) && Locks(step)
    ensures Inv(cfg, Next(cfg, st, step)) && Grows(st, Next(cfg, st, step))
  {
    hide Inv, Enabled, StreamsOk, BoxOk;
    if step.Join? {
      JoinKeepsInv(cfg, st, step.m, step.token, step.served);
    } else if step.Leave? {
      LeaveKeepsInv(cfg, st, step.p);
    } else if step.Expire? {
      ExpireKeepsInv(cfg, st, step.p);
    } else {
      ClearKeepsInv(cfg, st);
    }
  }

  /** The central lemma: whatever step comes next, the invariant survives it, and no offered frame
      is ever taken back. */
  lemma NextKeepsInv(cfg: Config, st: State, step: Step)
    requires Inv(cfg, st) && Enabled(st, step)
    ensures Inv(cfg, Next(cfg, st, step)) && Grows(st, Next(cfg, st, step))
  {
    if Locks(step) {
      LockKeepsInv(cfg, st, step);
    } else {
      QuietKeepsInv(cfg, st, step);
    }
  }

  lemma InitInv(cfg: Config)
    ensures Inv(cfg, Init)
  {
    InitStreams(cfg);
    InitCoverage(cfg);
    InitCount();
  }

  lemma InitCount()
    ensures CountOk(Init)
  {
    assert |Init.peers| == 0 && Init.exits == Exits(0, 0, 0, 0);
    assert forall p :: p !in Occupants(Init);
    assert Occupants(Init) == {};
  }

  lemma InitStreams(cfg: Config)
    ensures StreamsOk(cfg, Init)
  {
  }

  lemma InitCoverage(cfg: Config)
    ensures RegistryOk(cfg, Init) && BoxesOk(cfg, Init) && CoverageOk(cfg, Init)
  {
  }
}
