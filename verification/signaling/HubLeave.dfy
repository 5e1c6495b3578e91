/** The steps that empty a slot: a leave, the expiry of a lone device, and `Close`. */
module HubLeave {
  import opened Protocol
  import opened PeerModel
  import opened HubModel
  import opened HubRegistry

  /** `to` is `st` after a leave of `p` that found `p` in its slot. */
  ghost predicate Left(st: State, to: State, p: PeerId)
    requires Seated(st, p)
  {
    var me, other := st.peers[p], Counterpart(st, p);
    var s := st.sessions[me.key];
    && to.sessions == (if other.None? then st.sessions - {me.key}
                       else st.sessions[me.key := SetSlot(s, me.role, None).(readySent := false, lonely := None)])
    && to.gauge == st.gauge - (if other.None? then 1 else 0)
    && to.phase == st.phase && to.pairings == st.pairings
    && to.exits == st.exits.(left := st.exits.left + 1)
    && |to.peers| == |st.peers|
    && (forall i | 0 <= i < |st.peers| && i != p ::
          to.peers[i] == if s.lonely == Some(i) then StopTimer(st.peers[i]) else st.peers[i])
    && to.peers[p] == (if s.lonely == Some(p) then StopTimer(me) else me)
         .(acts := me.acts + [Act(Bye, other)], task := if other.Some? then Departing else Gone)
  }

  lemma LeaveSeatedView(st: State, p: PeerId)
    requires WellFormed(st) && Seated(st, p)
    ensures Left(st, LeaveLock(st, p), p)
  {
    var key, role := st.peers[p].key, st.peers[p].role;
    assert SlotsOk(st.peers, key, st.sessions[key]);
    VacateView(st, key, role);
    var vacated := Vacate(st, key, role);
    AbandonView(vacated, key);
    AbandonVacated(st, key, role);
    assert LeaveLock(st, p) == NoteLeft(Abandon(vacated, key), p, Counterpart(st, p));
  }

  lemma VacateView(st: State, key: string, role: Role)
    requires key in st.sessions && SlotsOk(st.peers, key, st.sessions[key])
    ensures var to, s := Vacate(st, key, role), st.sessions[key];
            && to == st.(sessions := st.sessions[key := SetSlot(s, role, None).(lonely := None)], peers := to.peers)
            && |to.peers| == |st.peers|
            && forall i | 0 <= i < |st.peers| ::
                 to.peers[i] == if s.lonely == Some(i) then StopTimer(st.peers[i]) else st.peers[i]
  {
    CalmView(SetSession(st, key, SetSlot(st.sessions[key], role, None)), key);
  }

  /** The sessions once a slot has been emptied and the session dropped if nobody is left. */
  lemma AbandonVacated(st: State, key: string, role: Role)
    requires key in st.sessions && SlotsOk(st.peers, key, st.sessions[key])
    ensures Abandon(Vacate(st, key, role), key).sessions
         == if Slot(st.sessions[key], Opposite(role)).None? then st.sessions - {key}
            else st.sessions[key := SetSlot(st.sessions[key], role, None).(readySent := false, lonely := None)]
    ensures Abandon(Vacate(st, key, role), key).gauge
         == st.gauge - if Slot(st.sessions[key], Opposite(role)).None? then 1 else 0
  {
    var vacated := Vacate(st, key, role);
    VacateView(st, key, role);
    AbandonView(vacated, key);
    var bare := SetSlot(st.sessions[key], role, None).(readySent := false, lonely := None);
    assert vacated.sessions[key := bare] == st.sessions[key := bare];
    assert vacated.sessions - {key} == st.sessions - {key};
  }

  lemma AbandonView(st: State, key: string)
    requires key in st.sessions
    ensures var to, bare := Abandon(st, key), st.sessions[key].(readySent := false);
            && to == st.(sessions := to.sessions, gauge := to.gauge)
            && to.sessions == (if IsEmpty(bare) then st.sessions - {key} else st.sessions[key := bare])
            && to.gauge == st.gauge - (if IsEmpty(bare) then 1 else 0)
  {
    var bare := st.sessions[key].(readySent := false);
    assert st.sessions[key := bare] - {key} == st.sessions - {key};
  }

  lemma LeaveView(st: State, p: PeerId)
    requires WellFormed(st) && p < |st.peers|
    ensures !Seated(st, p) ==> LeaveLock(st, p) == SetPeer(st, p, st.peers[p].(task := Gone))
    ensures Seated(st, p) ==> Left(st, LeaveLock(st, p), p)
  {
    if Seated(st, p) { LeaveSeatedView(st, p); }
  }

  /** What a leave leaves for its goroutine to do. */
  lemma LeaveTask(st: State, p: PeerId)
    requires WellFormed(st) && p < |st.peers|
    ensures var me := LeaveLock(st, p).peers[p];
            if Seated(st, p) then
              && me.acts != [] && Last(me) == Act(Bye, Counterpart(st, p))
              && me.task == if Counterpart(st, p).Some? then Departing else Gone
            else me.task == Gone
  {
    LeaveView(st, p);
  }

  /** `to` is `st` after an expiry that evicts `d`. */
  ghost predicate Evicted(st: State, to: State, d: PeerId)
    requires Expires(st, d)
  {
    && to.sessions == st.sessions - {st.peers[d].key}
    && to.gauge == st.gauge - 1
    && to.phase == st.phase && to.pairings == st.pairings
    && to.exits == st.exits.(expired := st.exits.expired + 1)
    && to.peers == st.peers[d := st.peers[d].(timer := Evicting)]
  }

  /** An expiry either deletes the session, which held nobody else, or does nothing. */
  lemma ExpireView(st: State, d: PeerId)
    requires d < |st.peers|
    ensures !Expires(st, d) ==> ExpireLock(st, d) == SetPeer(st, d, st.peers[d].(timer := Spent))
    ensures Expires(st, d) ==> Evicted(st, ExpireLock(st, d), d)
  {
  }

  // ----- what they keep of the registry -----

  /** The session that was left, if somebody stays in it. */
  lemma LeftKeepsOwn(cfg: Config, st: State, to: State, p: PeerId)
    requires Seated(st, p) && Left(st, to, p) && st.peers[p].key in to.sessions
    requires SlotsOk(st.peers, st.peers[p].key, st.sessions[st.peers[p].key])
    ensures SlotsOk(to.peers, st.peers[p].key, to.sessions[st.peers[p].key])
    ensures SessionOk(cfg, to, to.sessions[st.peers[p].key])
  {
  }

  lemma LeftKeepsOther(cfg: Config, st: State, to: State, p: PeerId, k: string)
    requires Seated(st, p) && Left(st, to, p) && k in st.sessions && k != st.peers[p].key
    requires SlotsOk(st.peers, st.peers[p].key, st.sessions[st.peers[p].key])
    requires SlotsOk(st.peers, k, st.sessions[k]) && SessionOk(cfg, st, st.sessions[k])
    ensures k in to.sessions && SlotsOk(to.peers, k, to.sessions[k]) && SessionOk(cfg, to, to.sessions[k])
  {
  }

  lemma LeftKeepsGauge(cfg: Config, st: State, to: State, p: PeerId)
    requires RegistryOk(cfg, st) && Seated(st, p) && Left(st, to, p)
    ensures to.gauge == |to.sessions| + Pending(to.phase)
  {
    hide WellFormed, SessionOk, PeerOk;
    if Counterpart(st, p).None? {
      assert |to.sessions| == |st.sessions| - 1;
    }
  }

  lemma LeftKeepsSessions(cfg: Config, st: State, to: State, p: PeerId)
    requires RegistryOk(cfg, st) && Seated(st, p) && Left(st, to, p)
    ensures forall k | k in to.sessions :: SlotsOk(to.peers, k, to.sessions[k]) && SessionOk(cfg, to, to.sessions[k])
    ensures to.gauge == |to.sessions| + Pending(to.phase)
  {
    hide RegistryOk, Seated, Left, SlotsOk, SessionOk;
    LeftKeepsGauge(cfg, st, to, p);
    forall k | k in to.sessions ensures SlotsOk(to.peers, k, to.sessions[k]) && SessionOk(cfg, to, to.sessions[k]) {
      LeftKeepsSession(cfg, st, to, p, k);
    }
  }

  lemma LeftKeepsSession(cfg: Config, st: State, to: State, p: PeerId, k: string)
    requires RegistryOk(cfg, st) && Seated(st, p) && Left(st, to, p) && k in to.sessions
    ensures SlotsOk(to.peers, k, to.sessions[k]) && SessionOk(cfg, to, to.sessions[k])
  {
    hide SlotsOk, SessionOk;
    assert SlotsOk(st.peers, st.peers[p].key, st.sessions[st.peers[p].key]);
    if k == st.peers[p].key {
      LeftKeepsOwn(cfg, st, to, p);
    } else {
      LeftKeepsOther(cfg, st, to, p, k);
    }
  }

  lemma LeftKeepsTargets(st: State, to: State, p: PeerId, i: PeerId)
    requires Seated(st, p) && Left(st, to, p) && i < |st.peers| && TargetsOk(st.peers, st.peers[i])
    requires SlotsOk(st.peers, st.peers[p].key, st.sessions[st.peers[p].key])
    ensures TargetsOk(to.peers, to.peers[i])
  {
  }

  lemma LeftKeepsPeer(cfg: Config, st: State, to: State, p: PeerId, i: PeerId)
    requires Seated(st, p) && Left(st, to, p) && i < |st.peers| && PeerOk(cfg, st, i)
    requires SlotsOk(st.peers, st.peers[p].key, st.sessions[st.peers[p].key])
    ensures PeerOk(cfg, to, i)
  {
    assert Seated(to, i) ==> Seated(st, i) && i != p;
  }

  lemma LeftKeepsRegistry(cfg: Config, st: State, to: State, p: PeerId)
    requires RegistryOk(cfg, st) && Seated(st, p) && Left(st, to, p)
    ensures RegistryOk(cfg, to)
  {
    hide SlotsOk, SessionOk, TargetsOk, PeerOk;
    LeftKeepsSessions(cfg, st, to, p);
    assert SlotsOk(st.peers, st.peers[p].key, st.sessions[st.peers[p].key]);
    forall i | 0 <= i < |to.peers| ensures TargetsOk(to.peers, to.peers[i]) && PeerOk(cfg, to, i) {
      LeftKeepsTargets(st, to, p, i);
      LeftKeepsPeer(cfg, st, to, p, i);
    }
  }

  /** A leave of a peer that no longer holds its slot. */
  lemma GoneKeepsRegistry(cfg: Config, st: State, p: PeerId)
    requires RegistryOk(cfg, st) && p < |st.peers| && !Seated(st, p)
    ensures RegistryOk(cfg, SetPeer(st, p, st.peers[p].(task := Gone)))
  {
    var to := SetPeer(st, p, st.peers[p].(task := Gone));
    forall k | k in to.sessions ensures SlotsOk(to.peers, k, to.sessions[k]) && SessionOk(cfg, to, to.sessions[k]) {
      assert SlotsOk(st.peers, k, st.sessions[k]) && SessionOk(cfg, st, st.sessions[k]);
    }
    forall i | 0 <= i < |to.peers| ensures TargetsOk(to.peers, to.peers[i]) && PeerOk(cfg, to, i) {
      assert TargetsOk(st.peers, st.peers[i]) && PeerOk(cfg, st, i);
    }
  }

  lemma EvictedKeepsSession(cfg: Config, st: State, to: State, d: PeerId, k: string)
    requires Expires(st, d) && Evicted(st, to, d) && k in to.sessions
    requires SlotsOk(st.peers, k, st.sessions[k]) && SessionOk(cfg, st, st.sessions[k])
    ensures SlotsOk(to.peers, k, to.sessions[k]) && SessionOk(cfg, to, to.sessions[k])
  {
  }

  lemma EvictedKeepsRegistry(cfg: Config, st: State, to: State, d: PeerId)
    requires RegistryOk(cfg, st) && st.phase != Shut && Expires(st, d) && st.peers[d].timer.Fired? && Evicted(st, to, d)
    ensures RegistryOk(cfg, to)
  {
    hide SlotsOk, SessionOk;
    forall k | k in to.sessions ensures SlotsOk(to.peers, k, to.sessions[k]) && SessionOk(cfg, to, to.sessions[k]) {
      EvictedKeepsSession(cfg, st, to, d, k);
    }
    forall i | 0 <= i < |to.peers| ensures TargetsOk(to.peers, to.peers[i]) && PeerOk(cfg, to, i) {
      assert TargetsOk(st.peers, st.peers[i]) && PeerOk(cfg, st, i);
    }
    assert |to.sessions| == |st.sessions| - 1;
  }

  lemma SpentKeepsSession(cfg: Config, st: State, d: PeerId, k: string)
    requires d < |st.peers| && st.peers[d].timer.Fired? && !Expires(st, d) && k in st.sessions
    requires SlotsOk(st.peers, k, st.sessions[k]) && SessionOk(cfg, st, st.sessions[k])
    ensures var to := SetPeer(st, d, st.peers[d].(timer := Spent));
            SlotsOk(to.peers, k, to.sessions[k]) && SessionOk(cfg, to, to.sessions[k])
  {
  }

  lemma SpentKeepsRegistry(cfg: Config, st: State, d: PeerId)
    requires RegistryOk(cfg, st) && d < |st.peers| && st.peers[d].timer.Fired? && !Expires(st, d)
    ensures RegistryOk(cfg, SetPeer(st, d, st.peers[d].(timer := Spent)))
  {
    hide SlotsOk, SessionOk, Expires;
    var to := SetPeer(st, d, st.peers[d].(timer := Spent));
    forall k | k in to.sessions ensures SlotsOk(to.peers, k, to.sessions[k]) && SessionOk(cfg, to, to.sessions[k]) {
      SpentKeepsSession(cfg, st, d, k);
    }
    forall i | 0 <= i < |to.peers| ensures TargetsOk(to.peers, to.peers[i]) && PeerOk(cfg, to, i) {
      assert TargetsOk(st.peers, st.peers[i]) && PeerOk(cfg, st, i);
    }
  }

  lemma ClearKeepsRegistry(cfg: Config, st: State)
    requires RegistryOk(cfg, st) && st.phase.Draining?
    ensures RegistryOk(cfg, ClearLock(st))
  {
    var to := ClearLock(st);
    forall i | 0 <= i < |to.peers| ensures TargetsOk(to.peers, to.peers[i]) && PeerOk(cfg, to, i) {
      assert TargetsOk(st.peers, st.peers[i]) && PeerOk(cfg, st, i);
    }
  }
}
