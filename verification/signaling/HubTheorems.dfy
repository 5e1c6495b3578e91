/** The promises of the hub, for every state of every run. */
module HubTheorems {
  import opened Protocol
  import opened PeerModel
  import opened HubModel
  import opened HubRegistry
  import opened HubJoin
  import opened HubLeave
  import opened HubStreams
  import opened HubInvariant
  import opened HubSteps
  import opened HubRuns
  import opened StreamMeaning
  import opened HubOutcomes

  // ----- registry, gauge, conservation, quiescence -----

  /** A slot holds a peer of its role and session, and no peer holds two slots. The gauge counts
      the sessions, except in the gap inside `Close`. */
  lemma RegistryAgrees(cfg: Config, states: seq<State>, steps: seq<Step>, i: nat)
    requires IsRun(cfg, states, steps) && i < |states|
    ensures var st := states[i];
            && st.gauge == |st.sessions| + Pending(st.phase)
            && (forall p | 0 <= p < |st.peers| :: st.peers[p].key == cfg.lower(st.peers[p].name))
            && forall k | k in st.sessions ::
                 var s := st.sessions[k];
                 && !IsEmpty(s)
                 && (s.readySent <==> IsPaired(s))
                 && forall role: Role | Slot(s, role).Some? ::
                      var p := Slot(s, role).value;
                      Seated(st, p) && st.peers[p].role == role && st.peers[p].key == k
  {
    RunInv(cfg, states, steps, i);
    var st := states[i];
    forall p | 0 <= p < |st.peers| ensures st.peers[p].key == cfg.lower(st.peers[p].name) {
      assert PeerOk(cfg, st, p);
    }
    forall k | k in st.sessions
      ensures var s := st.sessions[k];
              && !IsEmpty(s) && (s.readySent <==> IsPaired(s))
              && forall role: Role | Slot(s, role).Some? ::
                   Seated(st, Slot(s, role).value) && st.peers[Slot(s, role).value].role == role
                   && st.peers[Slot(s, role).value].key == k
    {
      assert SlotsOk(st.peers, k, st.sessions[k]) && SessionOk(cfg, st, st.sessions[k]);
    }
  }

  /** Every join is accounted for once: its peer is still seated, or it was replaced, left, expired
      or was cleared. */
  lemma PeersAreConserved(cfg: Config, states: seq<State>, steps: seq<Step>, i: nat)
    requires IsRun(cfg, states, steps) && i < |states|
    ensures var st := states[i];
            |st.peers| == |Occupants(st)| + st.exits.replaced + st.exits.left + st.exits.expired + st.exits.cleared
  {
    RunInv(cfg, states, steps, i);
  }

  /** Once every peer's leave has taken the lock, nothing is left behind, whatever replacements,
      expiries and stale timers came in between. */
  lemma Quiescence(cfg: Config, states: seq<State>, steps: seq<Step>, i: nat)
    requires IsRun(cfg, states, steps) && i < |states|
    requires forall p | 0 <= p < |states[i].peers| ::
               states[i].peers[p].task.Departing? || states[i].peers[p].task.Gone?
    ensures states[i].sessions == map[]
    ensures states[i].gauge == Pending(states[i].phase)
  {
    RunInv(cfg, states, steps, i);
    var st := states[i];
    if st.sessions != map[] {
      var k :| k in st.sessions;
      var s := st.sessions[k];
      assert SessionOk(cfg, st, s) && SlotsOk(st.peers, k, s);
      var p := if s.device.Some? then s.device.value else s.phone.value;
      assert PeerOk(cfg, st, p) && Seated(st, p);
      assert false;
    }
  }

  /** `Close` waits for every served connection, so when all peers came over a connection there is
      nothing left for it to clear and its gauge correction is zero. */
  lemma CloseFindsNothing(cfg: Config, states: seq<State>, steps: seq<Step>, i: nat)
    requires IsRun(cfg, states, steps) && i < |steps| && steps[i] == Clear
    requires forall p | 0 <= p < |states[i].peers| :: states[i].peers[p].served
    ensures states[i].sessions == map[] && states[i + 1].phase == Cleared(0) && states[i + 1].gauge == 0
  {
    assert StepAt(cfg, states, steps, i);
    Quiescence(cfg, states, steps, i);
    RunInv(cfg, states, steps, i + 1);
  }

  /** A peer that lost its slot can still call `leave`: the call changes nobody's queue and no
      session, now or later in the run. */
  lemma LateLeaveIsInert(cfg: Config, states: seq<State>, steps: seq<Step>, i: nat, j: nat, p: PeerId)
    requires IsRun(cfg, states, steps) && i <= j < |steps| && steps[j] == Leave(p)
    requires p < |states[i].peers| && !Seated(states[i], p)
    ensures states[j + 1].sessions == states[j].sessions && states[j + 1].gauge == states[j].gauge
    ensures states[j + 1].exits == states[j].exits && |states[j + 1].peers| == |states[j].peers|
    ensures forall q | 0 <= q < |states[j].peers| ::
              && states[j + 1].peers[q].box == states[j].peers[q].box
              && states[j + 1].peers[q].acts == states[j].peers[q].acts
    ensures p < |states[j + 1].peers| && states[j + 1].peers[p].task.Gone?
  {
    NeverReturns(cfg, states, steps, i, j, p);
    assert StepAt(cfg, states, steps, j);
    LeaveView(states[j], p);
  }

  /** A join seats its peer, unseats only the holder of that slot, and tells nobody bye: what it adds
      to any stream is a joined, a ready or a remote_joined. */
  lemma JoinReplaces(cfg: Config, states: seq<State>, steps: seq<Step>, i: nat)
    requires IsRun(cfg, states, steps) && i < |steps| && steps[i].Join?
    ensures var st, to, p := states[i], states[i + 1], |states[i].peers|;
            && |to.peers| == p + 1 && Seated(to, p) && to.peers[p].task.Joining?
            && (to.peers[p].task.replaced.Some? ==>
                  && Seated(st, to.peers[p].task.replaced.value)
                  && st.peers[to.peers[p].task.replaced.value].key == to.peers[p].key
                  && st.peers[to.peers[p].task.replaced.value].role == to.peers[p].role)
            && (forall q | 0 <= q < p ::
                  Seated(to, q) <==> Seated(st, q) && to.peers[p].task.replaced != Some(q))
            && (forall q | 0 <= q < p :: st.peers[q].box.offered <= to.peers[q].box.offered)
    ensures forall q | 0 <= q < |states[i + 1].peers| ::
              AddsNoBye(if q < |states[i].peers| then states[i].peers[q].box.offered else [],
                        states[i + 1].peers[q].box.offered)
  {
    hide Inv, Enabled;
    assert StepAt(cfg, states, steps, i);
    RunInv(cfg, states, steps, i);
    RunInv(cfg, states, steps, i + 1);
    RunStep(cfg, states, steps, i);
    var st, p := states[i], |states[i].peers|;
    var Join(m, token, served) := steps[i];
    JoinReplacesAt(cfg, st, m, token, served);
    forall q | 0 <= q < |states[i + 1].peers|
      ensures AddsNoBye(if q < p then st.peers[q].box.offered else [], states[i + 1].peers[q].box.offered)
    {
      JoinOffers(cfg, st, m, token, served, q);
    }
  }

  /** Of the offers beyond the first ones, none is a bye. */
  ghost predicate AddsNoBye(was: seq<Offer>, now: seq<Offer>)
  {
    forall j | |was| <= j < |now| :: now[j].frame != Bye
  }

  lemma JoinReplacesAt(cfg: Config, st: State, m: JoinMessage, token: string, served: bool)
    requires Inv(cfg, st) && Enabled(st, Join(m, token, served))
    ensures var to, p := JoinLock(cfg, st, m, token, served), |st.peers|;
            && |to.peers| == p + 1 && Seated(to, p) && to.peers[p].task.Joining?
            && (to.peers[p].task.replaced.Some? ==>
                  && Seated(st, to.peers[p].task.replaced.value)
                  && st.peers[to.peers[p].task.replaced.value].key == to.peers[p].key
                  && st.peers[to.peers[p].task.replaced.value].role == to.peers[p].role)
            && (forall q | 0 <= q < p ::
                  Seated(to, q) <==> Seated(st, q) && to.peers[p].task.replaced != Some(q))
  {
    hide JoinLock, BoxesOk, StreamsOk, CoverageOk, CountOk;
    var a := Arrive(cfg, st, m, token);
    JoinerView(cfg, st, m, token, served);
    forall q | 0 <= q <= a.p
      ensures Seated(JoinLock(cfg, st, m, token, served), q) == (q == a.p || (Seated(st, q) && a.replaced != Some(q)))
    {
      JoinSeats(cfg, st, m, token, served, q);
    }
    if a.replaced.Some? {
      ReplacedWasSeated(cfg, st, a, m.session);
      assert SlotsOk(st.peers, a.key, st.sessions[a.key]);
    }
  }

  lemma AnnounceAddsNoBye(cfg: Config, mid: State, joiner: PeerId, session: string, q: PeerId, was: seq<Offer>)
    requires q < |mid.peers| && AddsNoBye(was, mid.peers[q].box.offered)
    ensures var to := Announce(cfg, mid, joiner, session);
            |to.peers| == |mid.peers| && AddsNoBye(was, to.peers[q].box.offered)
  {
    hide Seated, Send, Announce;
    AnnounceView(cfg, mid, joiner, session);
    SendNeutral(cfg, mid.peers[q].box, RemoteJoined(session), Announced(joiner));
  }

  lemma JoinOffers(cfg: Config, st: State, m: JoinMessage, token: string, served: bool, q: PeerId)
    requires Inv(cfg, st) && Enabled(st, Join(m, token, served)) && q <= |st.peers|
    ensures |JoinLock(cfg, st, m, token, served).peers| == |st.peers| + 1 ==>
              AddsNoBye(if q < |st.peers| then st.peers[q].box.offered else [],
                        JoinLock(cfg, st, m, token, served).peers[q].box.offered)
  {
    hide StreamsOk, BoxesOk, CountOk, CoverageOk, Announce, Admit, Host, Guest, AddsNoBye;
    var mid := Admit(cfg, st, m, token, served);
    AdmitView(cfg, st, m, token, served);
    AdmitOffers(cfg, st, mid, Arrive(cfg, st, m, token), m.session, served, q);
    AnnounceAddsNoBye(cfg, mid, |st.peers|, m.session, q, if q < |st.peers| then st.peers[q].box.offered else []);
  }

  lemma AdmitOffers(cfg: Config, st: State, mid: State, a: Arrival, name: string, served: bool, q: PeerId)
    requires Admitted(cfg, st, mid, a, name, served) && q <= a.p
    ensures AddsNoBye(if q < a.p then st.peers[q].box.offered else [], mid.peers[q].box.offered)
  {
    if q < a.p {
      HostGrows(cfg, a, q, st.peers[q]);
    } else {
      GuestStream(cfg, a, name, served);
    }
  }

  // ----- timers -----

  /** A timer that fires for a device no longer seated, or no longer alone, does nothing but end. */
  lemma StaleTimerIsInert(cfg: Config, states: seq<State>, steps: seq<Step>, i: nat, j: nat, d: PeerId)
    requires IsRun(cfg, states, steps) && i <= j < |steps| && steps[j] == Expire(d)
    requires d < |states[i].peers| && !Seated(states[i], d)
    ensures d < |states[j].peers|
    ensures states[j + 1] == SetPeer(states[j], d, states[j].peers[d].(timer := Spent))
  {
    NeverReturns(cfg, states, steps, i, j, d);
    assert StepAt(cfg, states, steps, j);
    RunInv(cfg, states, steps, j);
    assert PeerOk(cfg, states[j], d);
    ExpireView(states[j], d);
  }

  /** An expiry takes effect exactly when the device still holds its slot and has no phone. It then
      deletes that session, and leaves every other session and every other peer as it was. */
  lemma ExpiryEvictsOnlyItsDevice(cfg: Config, states: seq<State>, steps: seq<Step>, i: nat, d: PeerId)
    requires IsRun(cfg, states, steps) && i < |steps| && steps[i] == Expire(d)
    ensures d < |states[i].peers| && states[i].peers[d].role.Device?
    ensures |states[i + 1].peers| == |states[i].peers|
    ensures states[i + 1].sessions != states[i].sessions <==> Alone(states[i], d)
    ensures states[i + 1].sessions != states[i].sessions ==>
              && states[i + 1].sessions == states[i].sessions - {states[i].peers[d].key}
              && states[i + 1].peers[d].timer.Evicting?
    ensures forall q | 0 <= q < |states[i].peers| && q != d :: states[i + 1].peers[q] == states[i].peers[q]
    ensures states[i + 1].peers[d].box == states[i].peers[d].box
  {
    hide WellFormed, StreamsOk, BoxesOk, CountOk, CoverageOk, SessionOk;
    assert StepAt(cfg, states, steps, i);
    RunInv(cfg, states, steps, i);
    assert PeerOk(cfg, states[i], d);
    ExpiresIsAlone(cfg, states[i], d);
    ExpireView(states[i], d);
  }

  /** A session's timer belongs to its current device, which has no phone, and can still fire. */
  lemma LonelyIsCurrent(cfg: Config, states: seq<State>, steps: seq<Step>, i: nat, k: string)
    requires IsRun(cfg, states, steps) && i < |states| && k in states[i].sessions
    ensures var st := states[i];
            var s := st.sessions[k];
            s.lonely.Some? ==>
              && cfg.noReceiverTimeout > 0
              && s.device == s.lonely && s.phone.None? && Seated(st, s.lonely.value)
              && (st.peers[s.lonely.value].timer.Armed? || st.peers[s.lonely.value].timer.Fired?)
  {
    RunInv(cfg, states, steps, i);
    assert SessionOk(cfg, states[i], states[i].sessions[k]) && SlotsOk(states[i].peers, k, states[i].sessions[k]);
  }

  /** With a timeout set, a seated device that was never offered a ready has its own timer armed, or
      fired and waiting for the lock. */
  lemma UnpairedDeviceIsTimed(cfg: Config, states: seq<State>, steps: seq<Step>, i: nat, d: PeerId)
    requires IsRun(cfg, states, steps) && i < |states| && cfg.noReceiverTimeout > 0
    requires Seated(states[i], d) && states[i].peers[d].role.Device? && NeverPaired(states[i].peers[d])
    ensures var st := states[i];
            && st.sessions[st.peers[d].key].lonely == Some(d)
            && (st.peers[d].timer.Armed? || st.peers[d].timer.Fired?)
  {
    RunInv(cfg, states, steps, i);
    var st, k := states[i], states[i].peers[d].key;
    var s := st.sessions[k];
    assert SlotsOk(st.peers, k, s) && CoverOk(cfg, st, s) && CoupleOk(st.peers, s) && SessionOk(cfg, st, s);
  }

  // ----- what is offered, and in which order -----

  /** Every stream opens with an accepted `joined`, the only one, and nothing a counterpart caused
      comes before the ready of that very pairing. */
  lemma StreamsOpenInOrder(cfg: Config, states: seq<State>, steps: seq<Step>, i: nat, q: PeerId)
    requires IsRun(cfg, states, steps) && i < |states| && q < |states[i].peers|
    ensures var offers := states[i].peers[q].box.offered;
            && offers != [] && offers[0] == Offer(Joined, Welcome, true)
            && (forall j | 0 < j < |offers| :: !offers[j].cause.Welcome? && offers[j].frame != Joined)
            && forall j | 0 <= j < |offers| && offers[j].cause.Relayed? ::
                 var p := offers[j].cause.from;
                 && p < |states[i].peers|
                 && HasCause(offers[..j], PairCause(states[i].peers[p].role, p, q))
  {
    hide Next, Enabled, BoxOk;
    RunInv(cfg, states, steps, i);
    var st := states[i];
    var offers := st.peers[q].box.offered;
    assert StreamOk(cfg, st, q) && OfferOk(st.peers, q, offers, 0);
    forall j | 0 <= j < |offers|
      ensures j > 0 ==> !offers[j].cause.Welcome? && offers[j].frame != Joined
      ensures offers[j].cause.Relayed? ==>
                var p := offers[j].cause.from;
                p < |st.peers| && HasCause(offers[..j], PairCause(st.peers[p].role, p, q))
    {
      assert OfferOk(st.peers, q, offers, j);
      if offers[j].cause.Relayed? {
        RelayAt(st, q, j, cfg);
        var p, n := offers[j].cause.from, offers[j].cause.n;
        assert ActsOk(st.peers, p) && ActOk(st.peers, p, st.peers[p].acts[n]);
      } else if offers[j].cause.Paired? {
        var n := ReadyAt(cfg, st, q, j);
      }
    }
  }

  /** A relayed offer carries the frame of the act it names. */
  lemma RelayAt(st: State, q: PeerId, j: nat, cfg: Config)
    requires q < |st.peers| && StreamOk(cfg, st, q) && j < |st.peers[q].box.offered|
    requires st.peers[q].box.offered[j].cause.Relayed?
    ensures var o := st.peers[q].box.offered[j];
            && o.cause.from < |st.peers|
            && var done := Done(st.peers[o.cause.from]);
            && o.cause.n < |done| && done[o.cause.n] == Act(o.frame, Some(q))
  {
    var offers := st.peers[q].box.offered;
    assert OfferOk(st.peers, q, offers, j);
    var p := offers[j].cause.from;
    RelaysAt(offers, j, p);
    ActsToEntries(Done(st.peers[p]), q);
  }

  /** A ready stands for a pairing of the peer that gets it. */
  lemma ReadyAt(cfg: Config, st: State, q: PeerId, j: nat) returns (n: nat)
    requires q < |st.peers| && StreamOk(cfg, st, q) && j < |st.peers[q].box.offered|
    requires st.peers[q].box.offered[j].cause.Paired?
    ensures n < |st.pairings| && (st.pairings[n].device == q || st.pairings[n].phone == q)
    ensures var o, pair := st.peers[q].box.offered[j], st.pairings[n];
            o.cause == CauseOf(pair) && o.frame == ReadyFrame(cfg, pair.token, pair.phone == q)
    ensures |ReadiesFor(cfg, st.pairings[..n], q)| == |Readies(st.peers[q].box.offered[..j])|
  {
    ReadiesAt(st.peers[q].box.offered, j);
    n := ReadiesForBack(cfg, st.pairings, q, |Readies(st.peers[q].box.offered[..j])|);
  }

  // ----- ready once per pairing -----

  /** The later joiner of a pairing. */
  function Newest(pair: Pairing): PeerId
  {
    if pair.device > pair.phone then pair.device else pair.phone
  }

  lemma JoinPairings(cfg: Config, st: State, m: JoinMessage, token: string, served: bool)
    requires RegistryOk(cfg, st) && CheckJoin(m).None?
    ensures var to := JoinLock(cfg, st, m, token, served); NewPairing(st.pairings, to.pairings, |st.peers|)
  {
    AdmitView(cfg, st, m, token, served);
    ArriveSensible(cfg, st, m, token);
    AnnounceView(cfg, Admit(cfg, st, m, token, served), |st.peers|, m.session);
  }

  /** The pairings stay, but for one that `joiner` may have brought. */
  ghost predicate NewPairing(a: seq<Pairing>, b: seq<Pairing>, joiner: PeerId)
  {
    b == a || (|b| == |a| + 1 && a == b[..|a|] && Newest(b[|a|]) == joiner)
  }

  lemma NextPairings(cfg: Config, st: State, step: Step)
    requires Inv(cfg, st) && Enabled(st, step)
    ensures NewPairing(st.pairings, Next(cfg, st, step).pairings, |st.peers|)
    ensures forall n | 0 <= n < |st.pairings| :: Newest(st.pairings[n]) < |st.peers|
  {
    forall n | 0 <= n < |st.pairings| ensures Newest(st.pairings[n]) < |st.peers| {
      assert PairingOk(st.peers, st.pairings[n]);
    }
    if step.Join? {
      JoinPairings(cfg, st, step.m, step.token, step.served);
    } else if step.Leave? {
      LeaveView(st, step.p);
    } else if step.Expire? {
      ExpireView(st, step.p);
    } else if !step.Clear? {
      QuietView(cfg, st, step);
    }
  }

  lemma RunPairings(cfg: Config, states: seq<State>, steps: seq<Step>, i: nat)
    requires IsRun(cfg, states, steps) && i < |steps|
    ensures NewPairing(states[i].pairings, states[i + 1].pairings, |states[i].peers|)
    ensures forall n | 0 <= n < |states[i].pairings| :: Newest(states[i].pairings[n]) < |states[i].peers|
  {
    RunInv(cfg, states, steps, i);
    assert StepAt(cfg, states, steps, i);
    NextPairings(cfg, states[i], steps[i]);
  }

  /** No two pairings are of the same two peers: each is due to a new joiner. */
  lemma {:induction false} PairingsDiffer(cfg: Config, states: seq<State>, steps: seq<Step>, i: nat)
    requires IsRun(cfg, states, steps) && i < |states|
    ensures forall n, m | 0 <= n < m < |states[i].pairings| ::
              Newest(states[i].pairings[n]) < Newest(states[i].pairings[m])
  {
    if i > 0 {
      PairingsDiffer(cfg, states, steps, i - 1);
      RunPairings(cfg, states, steps, i - 1);
      RisesBy(states[i - 1].pairings, states[i].pairings, |states[i - 1].peers|);
    }
  }

  lemma RisesBy(a: seq<Pairing>, b: seq<Pairing>, joiner: PeerId)
    requires forall n, m | 0 <= n < m < |a| :: Newest(a[n]) < Newest(a[m])
    requires forall n | 0 <= n < |a| :: Newest(a[n]) < joiner
    requires NewPairing(a, b, joiner)
    ensures forall n, m | 0 <= n < m < |b| :: Newest(b[n]) < Newest(b[m])
  {
    forall n, m | 0 <= n < m < |b| ensures Newest(b[n]) < Newest(b[m]) {
      assert b[n] == a[n];
      if m < |a| { assert b[m] == a[m]; }
    }
  }

  /** The ready frames offered to a peer are exactly those of its pairings, in order. */
  lemma ReadyPerPairing(cfg: Config, states: seq<State>, steps: seq<Step>, i: nat, q: PeerId)
    requires IsRun(cfg, states, steps) && i < |states| && q < |states[i].peers|
    ensures Readies(states[i].peers[q].box.offered) == ReadiesFor(cfg, states[i].pairings, q)
    ensures forall j | 0 <= j < |states[i].peers[q].box.offered| ::
              states[i].peers[q].box.offered[j].frame.Ready? <==> states[i].peers[q].box.offered[j].cause.Paired?
  {
    hide Next, Enabled;
    RunInv(cfg, states, steps, i);
    var st := states[i];
    var offers := st.peers[q].box.offered;
    assert StreamOk(cfg, st, q);
    forall j | 0 <= j < |offers| ensures offers[j].frame.Ready? <==> offers[j].cause.Paired? {
      assert OfferOk(st.peers, q, offers, j);
      if offers[j].cause.Paired? {
        var n := ReadyAt(cfg, st, q, j);
      } else if offers[j].cause.Relayed? {
        RelayAt(st, q, j, cfg);
        var p, n := offers[j].cause.from, offers[j].cause.n;
        assert ActsOk(st.peers, p) && ActOk(st.peers, p, st.peers[p].acts[n]);
      }
    }
  }

  /** The one place of a pairing's ready in the stream of `q`. */
  ghost predicate OnlyReady(cfg: Config, offers: seq<Offer>, j: nat, pair: Pairing, initiator: bool)
  {
    && j < |offers| && offers[j].cause == CauseOf(pair)
    && offers[j].frame.Ready? && offers[j].frame.initiator == initiator
    && NamesServers(cfg, offers[j].frame, pair.token)
    && forall k | 0 <= k < |offers| && offers[k].cause == CauseOf(pair) :: k == j
  }

  /** The frame names the STUN server of the settings, and their TURN server, if any, with the token as user
      name and as password. */
  predicate NamesServers(cfg: Config, frame: Frame, token: string)
    requires frame.Ready?
  {
    && frame.stun == cfg.stunURL
    && frame.turn == if cfg.turnURL == "" then None else Some(Credential(cfg.turnURL, token, token))
  }

  lemma ReadyIsUnique(cfg: Config, st: State, q: PeerId, n: nat) returns (j: nat)
    requires q < |st.peers| && StreamOk(cfg, st, q) && n < |st.pairings|
    requires st.pairings[n].device == q || st.pairings[n].phone == q
    requires forall a, b | 0 <= a < b < |st.pairings| :: Newest(st.pairings[a]) < Newest(st.pairings[b])
    ensures OnlyReady(cfg, st.peers[q].box.offered, j, st.pairings[n], st.pairings[n].phone == q)
  {
    var offers := st.peers[q].box.offered;
    ReadiesForAt(cfg, st.pairings, q, n);
    j := ReadiesFrom(offers, |ReadiesFor(cfg, st.pairings[..n], q)|);
    forall k | 0 <= k < |offers| && offers[k].cause == CauseOf(st.pairings[n]) ensures k == j {
      var a := ReadyAt(cfg, st, q, k);
      var b := ReadyAt(cfg, st, q, j);
      assert Newest(st.pairings[a]) == Newest(st.pairings[n]) == Newest(st.pairings[b]);
      assert a == n && b == n;
      if k < j { ReadiesOrder(offers, k, j); }
      if j < k { ReadiesOrder(offers, j, k); }
    }
  }

  /** Each pairing gives one ready with the initiator flag to the phone, one without to the device,
      and both carry the same session token. */
  lemma ReadyOncePerSide(cfg: Config, states: seq<State>, steps: seq<Step>, i: nat, n: nat) returns (d: nat, ph: nat)
    requires IsRun(cfg, states, steps) && i < |states| && n < |states[i].pairings|
    ensures var st, pair := states[i], states[i].pairings[n];
            && pair.device < |st.peers| && pair.phone < |st.peers|
            && st.peers[pair.device].role.Device? && st.peers[pair.phone].role.Phone?
            && st.peers[pair.device].key == st.peers[pair.phone].key
            && OnlyReady(cfg, st.peers[pair.device].box.offered, d, pair, false)
            && OnlyReady(cfg, st.peers[pair.phone].box.offered, ph, pair, true)
  {
    RunInv(cfg, states, steps, i);
    PairingsDiffer(cfg, states, steps, i);
    var st, pair := states[i], states[i].pairings[n];
    assert PairingOk(st.peers, pair) && StreamOk(cfg, st, pair.device) && StreamOk(cfg, st, pair.phone);
    d := ReadyIsUnique(cfg, st, pair.device, n);
    ph := ReadyIsUnique(cfg, st, pair.phone, n);
  }

  // ----- forwarding -----

  /** What `p` has passed on to `q` is exactly, in order and once each, the acts of `p` whose locked
      lookup found `q`, but for the one whose send is still to come. */
  lemma ForwardingIsFifo(cfg: Config, states: seq<State>, steps: seq<Step>, i: nat, p: PeerId, q: PeerId)
    requires IsRun(cfg, states, steps) && i < |states| && p < |states[i].peers| && q < |states[i].peers|
    ensures var offers, done := states[i].peers[q].box.offered, Done(states[i].peers[p]);
            && RelaysFrom(offers, p) == ActsTo(done, q)
            && (forall j | 0 <= j < |offers| && offers[j].cause.Relayed? && offers[j].cause.from == p ::
                  offers[j].cause.n < |done| && done[offers[j].cause.n] == Act(offers[j].frame, Some(q)))
            && (forall j, k | 0 <= j < k < |offers| && offers[j].cause.Relayed? && offers[k].cause.Relayed?
                              && offers[j].cause.from == p && offers[k].cause.from == p ::
                  offers[j].cause.n < offers[k].cause.n)
            && forall n | 0 <= n < |done| && done[n].to == Some(q) :: HasCause(offers, Relayed(p, n))
  {
    hide Next, Enabled, RegistryOk, BoxesOk;
    RunInv(cfg, states, steps, i);
    var st := states[i];
    var offers, done := st.peers[q].box.offered, Done(st.peers[p]);
    assert StreamOk(cfg, st, q);
    ActsToEntries(done, q);
    forall j | 0 <= j < |offers| && offers[j].cause.Relayed? && offers[j].cause.from == p
      ensures offers[j].cause.n < |done| && done[offers[j].cause.n] == Act(offers[j].frame, Some(q))
    {
      RelayAt(st, q, j, cfg);
    }
    forall j, k | 0 <= j < k < |offers| && offers[j].cause.Relayed? && offers[k].cause.Relayed?
                  && offers[j].cause.from == p && offers[k].cause.from == p
      ensures offers[j].cause.n < offers[k].cause.n
    {
      RelaysAt(offers, j, p);
      RelaysAt(offers, k, p);
      RelaysOrder(offers, j, k, p);
    }
    forall n | 0 <= n < |done| && done[n].to == Some(q) ensures HasCause(offers, Relayed(p, n)) {
      var r := ActsToHas(done, n, q);
      var j := RelaysBack(offers, r, p);
      assert offers[j].cause == Relayed(p, n);
    }
  }

  /** A forward records the client's bytes unchanged, addressed to whoever holds the opposite slot of
      the sender's session at that moment. */
  lemma ForwardAddresses(cfg: Config, states: seq<State>, steps: seq<Step>, i: nat)
    requires IsRun(cfg, states, steps) && i < |steps| && steps[i].Forward?
    ensures var st, p := states[i], steps[i].p;
            && p < |st.peers| && |states[i + 1].peers| == |st.peers|
            && exists to: Option<PeerId> ::
                 && states[i + 1].peers[p].acts == st.peers[p].acts + [Act(Raw(steps[i].raw), to)]
                 && (forall q: PeerId :: to == Some(q) <==> Together(st, p, q))
                 && (to.Some? ==> to.value < |st.peers| && st.peers[to.value].role != st.peers[p].role)
    ensures states[i + 1].sessions == states[i].sessions
    ensures forall q | 0 <= q < |states[i].peers| :: states[i + 1].peers[q].box == states[i].peers[q].box
  {
    assert StepAt(cfg, states, steps, i);
    var st, p := states[i], steps[i].p;
    var to := if Seated(st, p) then Counterpart(st, p) else None;
    forall q: PeerId ensures to == Some(q) <==> Together(st, p, q) {
      SeatedTogether(st, p, q);
    }
    if to.Some? {
      TogetherIsCounterpart(st, p, to.value);
    }
    assert states[i + 1].peers[p].acts == st.peers[p].acts + [Act(Raw(steps[i].raw), to)];
  }

  /** A leave of a peer that holds its slot records one bye, addressed to whoever sits in the session with it,
      and leaves every queue alone. */
  lemma LeaveAddresses(cfg: Config, states: seq<State>, steps: seq<Step>, i: nat)
    requires IsRun(cfg, states, steps) && i < |steps| && steps[i].Leave?
    requires Seated(states[i], steps[i].p)
    ensures var st, p := states[i], steps[i].p;
            && |states[i + 1].peers| == |st.peers|
            && exists to: Option<PeerId> ::
                 && states[i + 1].peers[p].acts == st.peers[p].acts + [Act(Bye, to)]
                 && (forall q: PeerId :: to == Some(q) <==> Together(st, p, q))
    ensures forall q | 0 <= q < |states[i].peers| :: states[i + 1].peers[q].box == states[i].peers[q].box
  {
    hide Together, LeaveLock, WellFormed;
    assert StepAt(cfg, states, steps, i);
    var st, p := states[i], steps[i].p;
    LeaveView(st, p);
    forall q: PeerId ensures Counterpart(st, p) == Some(q) <==> Together(st, p, q) {
      SeatedTogether(st, p, q);
    }
    assert states[i + 1].peers[p].acts == st.peers[p].acts + [Act(Bye, Counterpart(st, p))];
  }

  // ----- the joiner -----

  /** A join admits a message with a session and a known role, and brings the peer it asks for to the session
      it names. */
  lemma JoinIsForItsSession(cfg: Config, states: seq<State>, steps: seq<Step>, i: nat)
    requires IsRun(cfg, states, steps) && i < |steps| && steps[i].Join?
    ensures steps[i].m.session != "" && (steps[i].m.role == "device" || steps[i].m.role == "phone")
    ensures Welcomed(cfg, states[i], states[i + 1], steps[i].m, steps[i].token, steps[i].served)
  {
    hide JoinLock, WellFormed, Welcomed;
    assert StepAt(cfg, states, steps, i);
    RunInv(cfg, states, steps, i);
    JoinWelcomes(cfg, states[i], steps[i].m, steps[i].token, steps[i].served);
  }

  // ----- announcements -----

  /** A join tells every seated peer but the joiner once, and nobody else: not the joiner, and not
      the peer it replaced. */
  lemma JoinIsAnnounced(cfg: Config, states: seq<State>, steps: seq<Step>, i: nat, q: PeerId)
    requires IsRun(cfg, states, steps) && i < |steps| && steps[i].Join?
    requires q < |states[i + 1].peers|
    ensures var p, st, to := |states[i].peers|, states[i], states[i + 1];
            var offers := to.peers[q].box.offered;
            if q != p && Seated(to, q) then
              && q < |st.peers| && |offers| > |st.peers[q].box.offered|
              && offers[|offers| - 1].cause == Announced(p)
              && offers[|offers| - 1].frame == RemoteJoined(steps[i].m.session)
              && !HasCause(offers[..|offers| - 1], Announced(p))
            else
              !HasCause(offers, Announced(p))
  {
    hide Admit, Announce, Admitted, Arrive, RegistryOk, StreamsOk, Send;
    assert StepAt(cfg, states, steps, i);
    RunInv(cfg, states, steps, i);
    var st, p := states[i], |states[i].peers|;
    var Join(m, token, served) := steps[i];
    var mid, a := Admit(cfg, st, m, token, served), Arrive(cfg, st, m, token);
    AdmitView(cfg, st, m, token, served);
    ArriveSensible(cfg, st, m, token);
    AnnounceView(cfg, mid, p, m.session);
    JoinerView(cfg, st, m, token, served);
    NotYetAnnounced(cfg, st, mid, a, m.session, served, q);
    if q != p && Seated(mid, q) {
      SendNeutral(cfg, mid.peers[q].box, RemoteJoined(m.session), Announced(p));
      var offers := states[i + 1].peers[q].box.offered;
      assert offers[..|offers| - 1] == mid.peers[q].box.offered;
    }
    assert Seated(mid, q) == Seated(states[i + 1], q);
  }

  lemma NotYetAnnounced(cfg: Config, st: State, mid: State, a: Arrival, name: string, served: bool, q: PeerId)
    requires StreamsOk(cfg, st) && Admitted(cfg, st, mid, a, name, served) && q <= a.p
    ensures !HasCause(mid.peers[q].box.offered, Announced(a.p))
    ensures q < a.p ==> |mid.peers[q].box.offered| >= |st.peers[q].box.offered|
  {
    if q < a.p {
      HostGrows(cfg, a, q, st.peers[q]);
      var was, now := st.peers[q].box.offered, mid.peers[q].box.offered;
      assert StreamOk(cfg, st, q);
      forall j | 0 <= j < |now| ensures now[j].cause != Announced(a.p) {
        if j < |was| { assert OfferOk(st.peers, q, was, j); }
      }
    } else {
      GuestStream(cfg, a, name, served);
    }
  }

  // ----- backpressure, and the flush before a close -----

  /** A queue never outgrows its buffer; what was written, lost in a failed write or is still queued
      is what was accepted, in order; nothing is dropped before a close has been requested; and a
      close request never meets a full channel. */
  lemma NoSilentLoss(cfg: Config, states: seq<State>, steps: seq<Step>, i: nat, p: PeerId)
    requires IsRun(cfg, states, steps) && i < |states| && p < |states[i].peers|
    ensures var b := states[i].peers[p].box;
            && |b.queue| <= cfg.sendBuffer
            && b.written + b.lost + b.queue == Accepted(b.offered)
            && (b.lost != [] ==> |b.lost| == 1 && b.writer.Dead?)
            && (b.asked.None? ==> b.written + b.lost + b.queue == Frames(b.offered))
            && (forall j | 0 <= j < |b.offered| && !b.offered[j].accepted :: b.asked.Some?)
            && b.refused == 0
  {
    RunInv(cfg, states, steps, i);
    var b := states[i].peers[p].box;
    assert BoxOk(cfg, states[i].peers[p]);
    if b.asked.None? {
      AllAccepted(b.offered);
    }
  }

  /** What a turn of a writer does to its channels. A write takes the first frame of the queue to the socket, a
      failed one loses it and ends the writer, a close request starts the flush under its reason, and the
      close frame goes out when the queue is empty. Nothing else changes. */
  lemma WriterMoves(cfg: Config, states: seq<State>, steps: seq<Step>, i: nat)
    requires IsRun(cfg, states, steps) && i < |steps| && Writes(steps[i])
    ensures steps[i].p < |states[i].peers| == |states[i + 1].peers|
    ensures var p, a, b := steps[i].p, states[i].peers[steps[i].p].box, states[i + 1].peers[steps[i].p].box;
            && states[i + 1] == states[i].(peers := states[i].peers[p := states[i].peers[p].(box := b)])
            && b.offered == a.offered && b.asked == a.asked && b.mark == a.mark && b.refused == a.refused
            && match steps[i]
               case WriteStep(_) =>
                 && a.queue != [] && b.written == a.written + [a.queue[0]] && b.queue == a.queue[1..]
                 && b.writer == a.writer && b.lost == a.lost && b.closing == a.closing
               case WriteFailStep(_) =>
                 && a.queue != [] && b.written == a.written && b.lost == a.lost + [a.queue[0]]
                 && b.queue == a.queue[1..] && b.writer.Dead? && b.closing == a.closing
               case TakeCloseStep(_) =>
                 && a.asked.Some? && a.closing == [a.asked.value] && b.closing == []
                 && b.writer == Flushing(a.asked.value)
                 && b.queue == a.queue && b.written == a.written && b.lost == a.lost
               case FlushEndStep(_) =>
                 && a.asked.Some? && a.queue == b.queue == [] && b.writer == Closed(a.asked.value)
                 && b.written == a.written && b.lost == a.lost && b.closing == a.closing
               case _ =>
                 && b.writer.Dead? && b.queue == a.queue && b.written == a.written && b.lost == a.lost
                 && b.closing == a.closing
  {
    hide JoinLock, LeaveLock, ExpireLock, ClearLock, ForwardLock, RelaySend, WellFormed;
    assert StepAt(cfg, states, steps, i);
    QueueOk(cfg, states, steps, i, steps[i].p);
  }

  lemma QueueOk(cfg: Config, states: seq<State>, steps: seq<Step>, i: nat, q: PeerId)
    requires IsRun(cfg, states, steps) && i < |states| && q < |states[i].peers|
    ensures OutboxOk(cfg, states[i].peers[q].box)
  {
    hide IsRun, OutboxOk, RegistryOk, StreamsOk;
    RunInv(cfg, states, steps, i);
    assert BoxOk(cfg, states[i].peers[q]);
  }

  /** When the writer has sent its close frame, every frame accepted before the close was requested
      is on the wire, at its place in the accepted order. */
  lemma FlushBeforeClose(cfg: Config, states: seq<State>, steps: seq<Step>, i: nat, p: PeerId, j: nat)
    requires IsRun(cfg, states, steps) && i < |states| && p < |states[i].peers|
    requires var b := states[i].peers[p].box;
             b.writer.Closed? && j < b.mark && j < |b.offered| && b.offered[j].accepted
    ensures var b := states[i].peers[p].box;
            var place := |Accepted(b.offered[..j])|;
            && b.asked == Some(b.writer.reason)
            && place < |b.written| && b.written[place] == b.offered[j].frame
            && b.written <= Accepted(b.offered)
  {
    RunInv(cfg, states, steps, i);
    assert BoxOk(cfg, states[i].peers[p]);
    FlushedAt(cfg, states[i].peers[p].box, j);
  }

  /** The bye of a lone device reaches its socket before the close frame. */
  lemma LoneDeviceHearsBye(cfg: Config, states: seq<State>, steps: seq<Step>, i: nat, p: PeerId) returns (place: nat)
    requires IsRun(cfg, states, steps) && i < |states| && p < |states[i].peers|
    requires states[i].peers[p].box.writer == Closed("no receiver")
    ensures place < |states[i].peers[p].box.written| && states[i].peers[p].box.written[place] == Bye
  {
    RunInv(cfg, states, steps, i);
    var st, b := states[i], states[i].peers[p].box;
    assert BoxOk(cfg, st.peers[p]) && StreamOk(cfg, st, p);
    var j :| 0 <= j < b.mark && b.offered[j].cause.TimedOut? && b.offered[j].accepted;
    assert OfferOk(st.peers, p, b.offered, j);
    FlushBeforeClose(cfg, states, steps, i, p, j);
    place := |Accepted(b.offered[..j])|;
  }
}
