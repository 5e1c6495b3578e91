/** Who sat together in a run, and the ready frames that follow from it. */
module HubCouples {
  import opened Protocol
  import opened PeerModel
  import opened HubModel
  import opened HubRegistry
  import opened HubJoin
  import opened HubLeave
  import opened HubStreams
  import opened HubInvariant
  import opened HubRuns
  import opened StreamMeaning
  import opened HubOutcomes
  import opened HubTheorems

  // ----- couples and the record of pairings -----

  /** The two peers of a full session, with its token. */
  function Couple(s: Session): Pairing
    requires IsPaired(s)
  {
    Pairing(s.device.value, s.phone.value, s.token)
  }

  /** The session `k` is full, and `pair` are its peers and its token. */
  predicate SitIn(st: State, k: string, pair: Pairing)
  {
    k in st.sessions && IsPaired(st.sessions[k]) && Couple(st.sessions[k]) == pair
  }

  ghost predicate SitTogether(st: State, pair: Pairing)
  {
    exists k: string :: SitIn(st, k, pair)
  }

  /** Every full session has its couple on record. */
  ghost predicate Recorded(sessions: map<string, Session>, pairings: seq<Pairing>)
  {
    forall k | k in sessions && IsPaired(sessions[k]) :: Couple(sessions[k]) in pairings
  }

  /** A step keeps every couple on record, and records only couples that it has just made. */
  ghost predicate RecordsCouples(st: State, to: State)
  {
    && st.pairings <= to.pairings
    && (Recorded(st.sessions, st.pairings) ==> Recorded(to.sessions, to.pairings))
    && forall n | |st.pairings| <= n < |to.pairings| :: SitTogether(to, to.pairings[n])
  }

  lemma AdmittedRecords(cfg: Config, st: State, to: State, a: Arrival, name: string, served: bool)
    requires Sensible(st, a) && Admitted(cfg, st, to, a, name, served)
    ensures RecordsCouples(st, to)
  {
    if a.other.Some? {
      assert IsPaired(a.session) && Couple(a.session) == PairOf(a);
      assert SitIn(to, a.key, PairOf(a));
      assert to.pairings[|st.pairings|] == PairOf(a);
    } else {
      assert !IsPaired(a.session) && to.pairings == st.pairings;
    }
  }

  lemma SameRegistryRecords(st: State, mid: State, to: State)
    requires RecordsCouples(st, mid) && to.sessions == mid.sessions && to.pairings == mid.pairings
    ensures RecordsCouples(st, to)
  {
    forall n | |st.pairings| <= n < |to.pairings| ensures SitTogether(to, to.pairings[n]) {
      var k :| SitIn(mid, k, mid.pairings[n]);
      assert SitIn(to, k, to.pairings[n]);
    }
  }

  lemma JoinRecords(cfg: Config, st: State, m: JoinMessage, token: string, served: bool)
    requires RegistryOk(cfg, st) && CheckJoin(m).None?
    ensures RecordsCouples(st, JoinLock(cfg, st, m, token, served))
  {
    var mid := Admit(cfg, st, m, token, served);
    AdmitView(cfg, st, m, token, served);
    ArriveSensible(cfg, st, m, token);
    AdmittedRecords(cfg, st, mid, Arrive(cfg, st, m, token), m.session, served);
    AnnounceView(cfg, mid, |st.peers|, m.session);
    SameRegistryRecords(st, mid, JoinLock(cfg, st, m, token, served));
  }

  lemma LeaveRecords(st: State, p: PeerId)
    requires WellFormed(st) && p < |st.peers|
    ensures RecordsCouples(st, LeaveLock(st, p))
  {
    LeaveView(st, p);
  }

  lemma NextRecords(cfg: Config, st: State, step: Step)
    requires RegistryOk(cfg, st) && Enabled(st, step)
    ensures RecordsCouples(st, Next(cfg, st, step))
  {
    if step.Join? {
      JoinRecords(cfg, st, step.m, step.token, step.served);
    } else if step.Leave? {
      LeaveRecords(st, step.p);
    } else if step.Expire? {
      ExpireView(st, step.p);
    } else if !step.Clear? {
      QuietView(cfg, st, step);
    }
  }

  lemma RunRecords(cfg: Config, states: seq<State>, steps: seq<Step>, i: nat)
    requires IsRun(cfg, states, steps) && i < |steps|
    ensures RecordsCouples(states[i], states[i + 1])
  {
    RunInv(cfg, states, steps, i);
    assert StepAt(cfg, states, steps, i);
    NextRecords(cfg, states[i], steps[i]);
  }

  /** In every state, the two peers of a full session are on record as a pairing, under the token of
      that session. */
  lemma {:induction false} CouplesAreRecorded(cfg: Config, states: seq<State>, steps: seq<Step>, i: nat)
    requires IsRun(cfg, states, steps) && i < |states|
    ensures Recorded(states[i].sessions, states[i].pairings)
  {
    if i > 0 {
      CouplesAreRecorded(cfg, states, steps, i - 1);
      RunRecords(cfg, states, steps, i - 1);
    }
  }

  /** Every pairing on record sat together in some state so far, in a session with its token. */
  lemma {:induction false} PairingsSatTogether(cfg: Config, states: seq<State>, steps: seq<Step>, i: nat, n: nat)
    returns (j: nat)
    requires IsRun(cfg, states, steps) && i < |states| && n < |states[i].pairings|
    ensures j <= i && SitTogether(states[j], states[i].pairings[n])
  {
    if i > 0 {
      RunRecords(cfg, states, steps, i - 1);
      if n < |states[i - 1].pairings| {
        j := PairingsSatTogether(cfg, states, steps, i - 1, n);
      } else {
        j := i;
      }
    }
  }

  lemma {:induction false} PairingsStay(cfg: Config, states: seq<State>, steps: seq<Step>, i: nat, j: nat)
    requires IsRun(cfg, states, steps) && i <= j < |states|
    ensures states[i].pairings <= states[j].pairings
    decreases j
  {
    if i < j {
      PairingsStay(cfg, states, steps, i, j - 1);
      RunRecords(cfg, states, steps, j - 1);
    }
  }

  // ----- ready frames, by seats -----

  /** Whenever a device and a phone sit in one session, each has been offered the ready of that couple,
      under the token of that session, and never gets a second one: the device without the initiator
      flag, the phone with it. */
  lemma CoupleGetsReady(cfg: Config, states: seq<State>, steps: seq<Step>, j: nat, i: nat, k: string)
    returns (d: nat, ph: nat)
    requires IsRun(cfg, states, steps) && j <= i < |states|
    requires k in states[j].sessions && IsPaired(states[j].sessions[k])
    ensures var pair := Couple(states[j].sessions[k]);
            && pair.device < |states[j].peers| && pair.phone < |states[j].peers|
            && |states[j].peers| <= |states[i].peers|
            && OnlyReady(cfg, states[i].peers[pair.device].box.offered, d, pair, false)
            && OnlyReady(cfg, states[i].peers[pair.phone].box.offered, ph, pair, true)
  {
    var pair := Couple(states[j].sessions[k]);
    CouplesAreRecorded(cfg, states, steps, j);
    assert pair in states[j].pairings;
    var n :| 0 <= n < |states[j].pairings| && states[j].pairings[n] == pair;
    PairingsStay(cfg, states, steps, j, i);
    PeersStay(cfg, states, steps, j, i);
    RunInv(cfg, states, steps, j);
    assert SlotsOk(states[j].peers, k, states[j].sessions[k]);
    d, ph := ReadyOncePerSide(cfg, states, steps, i, n);
  }

  lemma {:induction false} PeersStay(cfg: Config, states: seq<State>, steps: seq<Step>, i: nat, j: nat)
    requires IsRun(cfg, states, steps) && i <= j < |states|
    ensures |states[i].peers| <= |states[j].peers|
    decreases j
  {
    if i < j {
      PeersStay(cfg, states, steps, i, j - 1);
      RunStep(cfg, states, steps, j - 1);
    }
  }

  /** A ready frame is offered only to a peer that sat in a full session, and it carries the token of
      that session and the flag of that peer's side. */
  lemma ReadyMeansCouple(cfg: Config, states: seq<State>, steps: seq<Step>, i: nat, q: PeerId, x: nat)
    returns (j: nat, k: string)
    requires IsRun(cfg, states, steps) && i < |states| && q < |states[i].peers|
    requires x < |states[i].peers[q].box.offered| && states[i].peers[q].box.offered[x].frame.Ready?
    ensures j <= i && k in states[j].sessions && IsPaired(states[j].sessions[k])
    ensures var pair := Couple(states[j].sessions[k]);
            && (pair.device == q || pair.phone == q)
            && states[i].peers[q].box.offered[x].frame.initiator == (pair.phone == q)
            && NamesServers(cfg, states[i].peers[q].box.offered[x].frame, pair.token)
  {
    RunInv(cfg, states, steps, i);
    ReadyPerPairing(cfg, states, steps, i, q);
    assert StreamOk(cfg, states[i], q);
    var n := ReadyAt(cfg, states[i], q, x);
    j := PairingsSatTogether(cfg, states, steps, i, n);
    k :| SitIn(states[j], k, states[i].pairings[n]);
  }

  // ----- as many ready frames as partners -----

  ghost predicate FacedAt(states: seq<State>, j: nat, q: PeerId, p: PeerId)
  {
    j < |states| && Together(states[j], q, p)
  }

  /** `q` has faced `p` in some state up to `i`. */
  ghost predicate Faced(states: seq<State>, i: nat, q: PeerId, p: PeerId)
  {
    exists j: nat :: j <= i && FacedAt(states, j, q, p)
  }

  /** The peers that `q` has faced up to state `i`. */
  ghost function Partners(states: seq<State>, i: nat, q: PeerId): set<PeerId>
    requires i < |states|
  {
    set p | 0 <= p < |states[i].peers| && Faced(states, i, q, p)
  }

  /** How many ready frames were offered. */
  function ReadyCount(offers: seq<Offer>): nat
  {
    if offers == [] then 0
    else ReadyCount(offers[..|offers| - 1]) + if offers[|offers| - 1].frame.Ready? then 1 else 0
  }

  lemma {:induction false} ReadyCountIsReadies(offers: seq<Offer>)
    requires forall j | 0 <= j < |offers| :: offers[j].frame.Ready? <==> offers[j].cause.Paired?
    ensures ReadyCount(offers) == |Readies(offers)|
  {
    if offers != [] {
      ReadyCountIsReadies(offers[..|offers| - 1]);
    }
  }

  predicate Joins(pair: Pairing, q: PeerId, p: PeerId)
  {
    (pair.device == q && pair.phone == p) || (pair.phone == q && pair.device == p)
  }

  ghost function PartnersIn(pairings: seq<Pairing>, q: PeerId): set<PeerId>
  {
    if pairings == [] then {}
    else
      var last := pairings[|pairings| - 1];
      PartnersIn(pairings[..|pairings| - 1], q)
      + if last.device == q then {last.phone} else if last.phone == q then {last.device} else {}
  }

  ghost predicate Met(pairings: seq<Pairing>, q: PeerId, p: PeerId)
  {
    exists n | 0 <= n < |pairings| :: Joins(pairings[n], q, p)
  }

  lemma {:induction false} PartnersMet(pairings: seq<Pairing>, q: PeerId, p: PeerId)
    requires forall n | 0 <= n < |pairings| :: pairings[n].device != pairings[n].phone
    ensures p in PartnersIn(pairings, q) <==> Met(pairings, q, p)
  {
    if pairings != [] {
      var front, last := pairings[..|pairings| - 1], |pairings| - 1;
      PartnersMet(front, q, p);
      if Met(front, q, p) {
        var n :| 0 <= n < |front| && Joins(front[n], q, p);
        assert Joins(pairings[n], q, p);
      }
      if Met(pairings, q, p) {
        var n :| 0 <= n < |pairings| && Joins(pairings[n], q, p);
        assert n < last ==> Joins(front[n], q, p);
      }
      assert Joins(pairings[last], q, p) ==> Met(pairings, q, p);
    }
  }

  /** A later pairing of `q` is with a partner that it has not met. */
  lemma LastIsNew(pairings: seq<Pairing>, q: PeerId)
    requires |pairings| > 0 && Joins(pairings[|pairings| - 1], q, OtherOf(pairings[|pairings| - 1], q))
    requires forall n | 0 <= n < |pairings| - 1 :: Newest(pairings[n]) < Newest(pairings[|pairings| - 1])
    ensures !Met(pairings[..|pairings| - 1], q, OtherOf(pairings[|pairings| - 1], q))
  {
  }

  function OtherOf(pair: Pairing, q: PeerId): PeerId
  {
    if pair.device == q then pair.phone else pair.device
  }

  /** Each pairing of `q` is with another partner. */
  lemma {:induction false} PartnersCount(cfg: Config, pairings: seq<Pairing>, q: PeerId)
    requires forall n | 0 <= n < |pairings| :: pairings[n].device != pairings[n].phone
    requires forall n, m | 0 <= n < m < |pairings| :: Newest(pairings[n]) < Newest(pairings[m])
    ensures |PartnersIn(pairings, q)| == |ReadiesFor(cfg, pairings, q)|
  {
    hide ReadyFrame, Met, Newest;
    if pairings != [] {
      var front, last := pairings[..|pairings| - 1], pairings[|pairings| - 1];
      PartnersCount(cfg, front, q);
      if last.device == q || last.phone == q {
        PartnersMet(front, q, OtherOf(last, q));
        LastIsNew(pairings, q);
      }
    }
  }

  /** Facing one another and sitting together as a couple are the same thing. */
  lemma FacingIsSitting(cfg: Config, st: State, q: PeerId, p: PeerId)
    requires Inv(cfg, st)
    ensures Together(st, q, p) <==> exists pair: Pairing :: Joins(pair, q, p) && SitTogether(st, pair)
  {
    hide StreamsOk, BoxesOk, CoverageOk, SessionOk;
    if Together(st, q, p) {
      var k := st.peers[q].key;
      assert SlotsOk(st.peers, k, st.sessions[k]);
      var pair := Couple(st.sessions[k]);
      assert SitIn(st, k, pair) && Joins(pair, q, p);
    }
    if exists pair: Pairing :: Joins(pair, q, p) && SitTogether(st, pair) {
      var pair :| Joins(pair, q, p) && SitTogether(st, pair);
      var k :| SitIn(st, k, pair);
      assert SlotsOk(st.peers, k, st.sessions[k]);
    }
  }

  /** A partner of the record is one that was faced, and the other way round. */
  lemma PartnersAgree(cfg: Config, states: seq<State>, steps: seq<Step>, i: nat, q: PeerId, p: PeerId)
    requires IsRun(cfg, states, steps) && i < |states|
    ensures Met(states[i].pairings, q, p) <==> Faced(states, i, q, p)
  {
    var pairings := states[i].pairings;
    if Met(pairings, q, p) {
      var n :| 0 <= n < |pairings| && Joins(pairings[n], q, p);
      var j := PairingsSatTogether(cfg, states, steps, i, n);
      RunInv(cfg, states, steps, j);
      FacingIsSitting(cfg, states[j], q, p);
      assert FacedAt(states, j, q, p);
    }
    if Faced(states, i, q, p) {
      var j: nat :| j <= i && FacedAt(states, j, q, p);
      RunInv(cfg, states, steps, j);
      FacingIsSitting(cfg, states[j], q, p);
      var pair :| Joins(pair, q, p) && SitTogether(states[j], pair);
      var k :| SitIn(states[j], k, pair);
      CouplesAreRecorded(cfg, states, steps, j);
      PairingsStay(cfg, states, steps, j, i);
      assert pair in states[j].pairings;
      var n :| 0 <= n < |states[j].pairings| && states[j].pairings[n] == pair;
      assert Joins(pairings[n], q, p);
    }
  }

  lemma SidesDiffer(st: State)
    requires forall n | 0 <= n < |st.pairings| :: PairingOk(st.peers, st.pairings[n])
    ensures forall n | 0 <= n < |st.pairings| :: st.pairings[n].device != st.pairings[n].phone
  {
    forall n | 0 <= n < |st.pairings| ensures st.pairings[n].device != st.pairings[n].phone {
      assert PairingOk(st.peers, st.pairings[n]);
    }
  }

  /** A peer has been offered exactly as many ready frames as there are peers it has faced. */
  lemma ReadyPerPartner(cfg: Config, states: seq<State>, steps: seq<Step>, i: nat, q: PeerId)
    requires IsRun(cfg, states, steps) && i < |states| && q < |states[i].peers|
    ensures ReadyCount(states[i].peers[q].box.offered) == |Partners(states, i, q)|
  {
    hide RegistryOk, BoxesOk, CountOk, CoverageOk, Readies, ReadiesFor, IsRun;
    var st := states[i];
    RunInv(cfg, states, steps, i);
    PairingsDiffer(cfg, states, steps, i);
    ReadyPerPairing(cfg, states, steps, i, q);
    ReadyCountIsReadies(st.peers[q].box.offered);
    SidesDiffer(st);
    PartnersCount(cfg, st.pairings, q);
    forall p ensures p in PartnersIn(st.pairings, q) <==> p in Partners(states, i, q) {
      PartnersMet(st.pairings, q, p);
      PartnersAgree(cfg, states, steps, i, q, p);
      if Met(st.pairings, q, p) {
        var n :| 0 <= n < |st.pairings| && Joins(st.pairings[n], q, p);
        assert PairingOk(st.peers, st.pairings[n]);
      }
    }
    assert PartnersIn(st.pairings, q) == Partners(states, i, q);
  }

  /** With a timeout set, a seated device that has faced no phone in any state so far has its own timer
      armed, or fired and waiting for the lock. */
  lemma LoneDeviceIsTimed(cfg: Config, states: seq<State>, steps: seq<Step>, i: nat, d: PeerId)
    requires IsRun(cfg, states, steps) && i < |states| && cfg.noReceiverTimeout > 0
    requires Seated(states[i], d) && states[i].peers[d].role.Device?
    requires forall p: PeerId :: !Faced(states, i, d, p)
    ensures var st := states[i];
            && st.sessions[st.peers[d].key].lonely == Some(d)
            && (st.peers[d].timer.Armed? || st.peers[d].timer.Fired?)
  {
    var st, offers := states[i], states[i].peers[d].box.offered;
    RunInv(cfg, states, steps, i);
    forall x | 0 <= x < |offers| ensures !offers[x].cause.Paired? {
      if offers[x].cause.Paired? {
        assert StreamOk(cfg, st, d);
        var n := ReadyAt(cfg, st, d, x);
        var pair := st.pairings[n];
        var p := if pair.device == d then pair.phone else pair.device;
        assert Joins(pair, d, p) && Met(st.pairings, d, p);
        PartnersAgree(cfg, states, steps, i, d, p);
        assert false;
      }
    }
    UnpairedDeviceIsTimed(cfg, states, steps, i, d);
  }
}
