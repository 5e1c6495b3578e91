/** What is offered to whom, in which order, and because of what. */
module HubStreams {
  import opened Protocol
  import opened PeerModel
  import opened HubModel
  import opened HubRegistry
  import opened HubJoin
  import opened HubLeave

  // ----- the parts of a stream -----

  /** The ready frames of a stream with the pairing each stands for. */
  function Readies(offers: seq<Offer>): seq<(Cause, Frame)>
  {
    if offers == [] then []
    else
      var last := offers[|offers| - 1];
      Readies(offers[..|offers| - 1]) + if last.cause.Paired? then [(last.cause, last.frame)] else []
  }

  /** The ready frames the pairings of `q` call for. */
  function ReadiesFor(cfg: Config, pairings: seq<Pairing>, q: PeerId): seq<(Cause, Frame)>
  {
    if pairings == [] then []
    else
      var last := pairings[|pairings| - 1];
      ReadiesFor(cfg, pairings[..|pairings| - 1], q)
      + if last.device == q || last.phone == q
        then [(Paired(last.device, last.phone), ReadyFrame(cfg, last.token, last.phone == q))] else []
  }

  /** The frames of a stream that came from `p`, with their place among the acts of `p`. */
  function RelaysFrom(offers: seq<Offer>, p: PeerId): seq<(nat, Frame)>
  {
    if offers == [] then []
    else
      var last := offers[|offers| - 1];
      RelaysFrom(offers[..|offers| - 1], p)
      + if last.cause.Relayed? && last.cause.from == p then [(last.cause.n, last.frame)] else []
  }

  /** The acts whose locked lookup found `q`. */
  function ActsTo(acts: seq<Act>, q: PeerId): seq<(nat, Frame)>
  {
    if acts == [] then []
    else
      var n := |acts| - 1;
      ActsTo(acts[..n], q) + if acts[n].to == Some(q) then [(n, acts[n].frame)] else []
  }

  predicate InFlight(p: Peer) { p.task.Relaying? || p.task.Departing? }

  /** The acts whose send has happened, or will not happen for want of a counterpart. */
  function Done(p: Peer): seq<Act>
  {
    if InFlight(p) && p.acts != [] then p.acts[..|p.acts| - 1] else p.acts
  }

  ghost predicate HasCause(offers: seq<Offer>, c: Cause)
  {
    exists i :: 0 <= i < |offers| && offers[i].cause == c
  }

  /** The pairing of two peers of opposite roles. */
  function PairCause(role: Role, p: PeerId, q: PeerId): Cause
  {
    if role.Device? then Paired(p, q) else Paired(q, p)
  }

  lemma OffersAppend(offers: seq<Offer>, o: Offer, p: PeerId)
    ensures Readies(offers + [o]) == Readies(offers) + if o.cause.Paired? then [(o.cause, o.frame)] else []
    ensures RelaysFrom(offers + [o], p) == RelaysFrom(offers, p)
              + if o.cause.Relayed? && o.cause.from == p then [(o.cause.n, o.frame)] else []
  {
    assert (offers + [o])[..|offers|] == offers;
  }

  lemma ReadiesForAppend(cfg: Config, pairings: seq<Pairing>, pair: Pairing, q: PeerId)
    ensures ReadiesFor(cfg, pairings + [pair], q) == ReadiesFor(cfg, pairings, q)
              + if pair.device == q || pair.phone == q
                then [(Paired(pair.device, pair.phone), ReadyFrame(cfg, pair.token, pair.phone == q))] else []
  {
    assert (pairings + [pair])[..|pairings|] == pairings;
  }

  lemma ActsToAppend(acts: seq<Act>, act: Act, q: PeerId)
    ensures ActsTo(acts + [act], q) == ActsTo(acts, q) + if act.to == Some(q) then [(|acts|, act.frame)] else []
  {
    assert (acts + [act])[..|acts|] == acts;
  }

  lemma {:induction false} NoActsTo(acts: seq<Act>, q: PeerId)
    requires forall n | 0 <= n < |acts| :: acts[n].to != Some(q)
    ensures ActsTo(acts, q) == []
  {
    if acts != [] {
      NoActsTo(acts[..|acts| - 1], q);
    }
  }

  lemma {:induction false} NoPairings(cfg: Config, pairings: seq<Pairing>, q: PeerId)
    requires forall n | 0 <= n < |pairings| :: pairings[n].device != q && pairings[n].phone != q
    ensures ReadiesFor(cfg, pairings, q) == []
  {
    if pairings != [] {
      NoPairings(cfg, pairings[..|pairings| - 1], q);
    }
  }

  lemma {:induction false} NoRelays(offers: seq<Offer>, p: PeerId)
    requires forall i | 0 <= i < |offers| && offers[i].cause.Relayed? :: offers[i].cause.from != p
    ensures RelaysFrom(offers, p) == []
  {
    if offers != [] {
      NoRelays(offers[..|offers| - 1], p);
    }
  }

  // ----- the invariant -----

  /** A frame that any seated peer may get at any time, whatever has gone before. */
  ghost predicate Neutral(peers: seq<Peer>, q: PeerId, o: Offer)
  {
    match o.cause
    case Announced(j) => j < |peers| && j != q && o.frame == RemoteJoined(peers[j].name)
    case TimedOut => o.frame == Bye
    case _ => false
  }

  ghost predicate OfferOk(peers: seq<Peer>, q: PeerId, offers: seq<Offer>, i: nat)
    requires q < |peers| && i < |offers|
  {
    var o := offers[i];
    match o.cause
    case Welcome => i == 0 && o.frame == Joined && o.accepted
    case Paired(_, _) => i > 0
    case Relayed(p, _) => p < |peers| && HasCause(offers[..i], PairCause(peers[p].role, p, q))
    case _ => i > 0 && Neutral(peers, q, o)
  }

  ghost predicate StreamOk(cfg: Config, st: State, q: PeerId)
    requires q < |st.peers|
  {
    var offers := st.peers[q].box.offered;
    && offers != []
    && (forall i | 0 <= i < |offers| :: OfferOk(st.peers, q, offers, i))
    && Readies(offers) == ReadiesFor(cfg, st.pairings, q)
    && (forall p | 0 <= p < |st.peers| :: RelaysFrom(offers, p) == ActsTo(Done(st.peers[p]), q))
  }

  ghost predicate ActOk(peers: seq<Peer>, p: PeerId, act: Act)
    requires p < |peers|
  {
    && (act.frame.Raw? || act.frame.Bye?)
    && (act.to.Some? ==>
          var q := act.to.value;
          && q < |peers| && peers[q].role == Opposite(peers[p].role) && peers[q].key == peers[p].key
          && HasCause(peers[q].box.offered, PairCause(peers[p].role, p, q)))
  }

  ghost predicate ActsOk(peers: seq<Peer>, p: PeerId)
    requires p < |peers|
  {
    && (InFlight(peers[p]) ==> peers[p].acts != [])
    && forall n | 0 <= n < |peers[p].acts| :: ActOk(peers, p, peers[p].acts[n])
  }

  /** Both sides of a full session have been offered the ready of that pairing. */
  ghost predicate CoupleOk(peers: seq<Peer>, s: Session)
  {
    IsPaired(s) ==>
      && s.device.value < |peers| && s.phone.value < |peers|
      && HasCause(peers[s.device.value].box.offered, Paired(s.device.value, s.phone.value))
      && HasCause(peers[s.phone.value].box.offered, Paired(s.device.value, s.phone.value))
  }

  ghost predicate PairingOk(peers: seq<Peer>, pair: Pairing)
  {
    && pair.device < |peers| && pair.phone < |peers|
    && peers[pair.device].role.Device? && peers[pair.phone].role.Phone?
    && peers[pair.device].key == peers[pair.phone].key
  }

  ghost predicate StreamsOk(cfg: Config, st: State)
  {
    && (forall q | 0 <= q < |st.peers| :: StreamOk(cfg, st, q))
    && (forall p | 0 <= p < |st.peers| :: ActsOk(st.peers, p))
    && (forall k | k in st.sessions :: CoupleOk(st.peers, st.sessions[k]))
    && (forall n | 0 <= n < |st.pairings| :: PairingOk(st.peers, st.pairings[n]))
  }

  // ----- growth of a stream by one offer -----

  lemma HasCauseGrows(a: seq<Offer>, b: seq<Offer>, c: Cause)
    requires HasCause(a, c) && a <= b
    ensures HasCause(b, c)
  {
    var i :| 0 <= i < |a| && a[i].cause == c;
    assert b[i].cause == c;
  }

  /** Later joins and sends do not spoil an offer. */
  lemma OfferStays(a: seq<Peer>, b: seq<Peer>, q: PeerId, was: seq<Offer>, now: seq<Offer>, i: nat)
    requires q < |a| <= |b| && forall j | 0 <= j < |a| :: SameIdentity(a[j], b[j])
    requires was <= now && i < |was| && OfferOk(a, q, was, i)
    ensures OfferOk(b, q, now, i)
  {
    assert now[..i] == was[..i];
  }

  // ----- steps that offer nothing, or neutral frames only -----

  ghost predicate NeutralGrowth(a: seq<Peer>, b: seq<Peer>, q: PeerId)
    requires q < |a| == |b|
  {
    var was, now := a[q].box.offered, b[q].box.offered;
    || now == was
    || (|now| == |was| + 1 && now == was + [now[|was|]] && Neutral(b, q, now[|was|]))
  }

  ghost predicate SameCouple(a: map<string, Session>, b: map<string, Session>, k: string)
    requires k in b
  {
    IsPaired(b[k]) ==> k in a && a[k].device == b[k].device && a[k].phone == b[k].phone
  }

  ghost predicate Uneventful(st: State, to: State)
  {
    && |to.peers| == |st.peers| && to.pairings == st.pairings
    && (forall i | 0 <= i < |st.peers| ::
          && SameIdentity(st.peers[i], to.peers[i])
          && to.peers[i].acts == st.peers[i].acts && InFlight(to.peers[i]) == InFlight(st.peers[i])
          && NeutralGrowth(st.peers, to.peers, i))
    && (forall k | k in to.sessions :: SameCouple(st.sessions, to.sessions, k))
  }

  lemma StreamGrows(cfg: Config, st: State, to: State, q: PeerId)
    requires q < |st.peers| == |to.peers| && StreamOk(cfg, st, q) && to.pairings == st.pairings
    requires forall j | 0 <= j < |st.peers| :: SameIdentity(st.peers[j], to.peers[j])
    requires forall p | 0 <= p < |st.peers| :: Done(to.peers[p]) == Done(st.peers[p])
    requires NeutralGrowth(st.peers, to.peers, q)
    ensures StreamOk(cfg, to, q)
  {
    var was, now := st.peers[q].box.offered, to.peers[q].box.offered;
    forall i | 0 <= i < |now| ensures OfferOk(to.peers, q, now, i) {
      if i < |was| {
        assert OfferOk(st.peers, q, was, i);
        OfferStays(st.peers, to.peers, q, was, now, i);
      }
    }
    forall p | 0 <= p < |to.peers| ensures RelaysFrom(now, p) == ActsTo(Done(to.peers[p]), q) {
      if now != was { OffersAppend(was, now[|was|], p); }
    }
    if now != was { OffersAppend(was, now[|was|], q); }
  }

  lemma ActsStay(a: seq<Peer>, b: seq<Peer>, p: PeerId)
    requires p < |a| <= |b| && ActsOk(a, p)
    requires forall j | 0 <= j < |a| :: SameIdentity(a[j], b[j]) && a[j].box.offered <= b[j].box.offered
    requires b[p].acts == a[p].acts && (InFlight(b[p]) ==> b[p].acts != [])
    ensures ActsOk(b, p)
  {
    forall n | 0 <= n < |b[p].acts| ensures ActOk(b, p, b[p].acts[n]) {
      ActStays(a, b, p, a[p].acts[n]);
    }
  }

  lemma ActStays(a: seq<Peer>, b: seq<Peer>, p: PeerId, act: Act)
    requires p < |a| <= |b| && ActOk(a, p, act)
    requires forall j | 0 <= j < |a| :: SameIdentity(a[j], b[j]) && a[j].box.offered <= b[j].box.offered
    ensures ActOk(b, p, act)
  {
    if act.to.Some? {
      var q := act.to.value;
      HasCauseGrows(a[q].box.offered, b[q].box.offered, PairCause(a[p].role, p, q));
    }
  }

  lemma CoupleStays(a: seq<Peer>, b: seq<Peer>, s: Session, t: Session)
    requires |a| <= |b| && CoupleOk(a, s) && (IsPaired(t) ==> s.device == t.device && s.phone == t.phone)
    requires forall j | 0 <= j < |a| :: a[j].box.offered <= b[j].box.offered
    ensures CoupleOk(b, t)
  {
    if IsPaired(t) {
      var d, ph := t.device.value, t.phone.value;
      HasCauseGrows(a[d].box.offered, b[d].box.offered, Paired(d, ph));
      HasCauseGrows(a[ph].box.offered, b[ph].box.offered, Paired(d, ph));
    }
  }

  lemma UneventfulKeepsStreams(cfg: Config, st: State, to: State)
    requires StreamsOk(cfg, st) && Uneventful(st, to)
    ensures StreamsOk(cfg, to)
  {
    forall j | 0 <= j < |st.peers|
      ensures SameIdentity(st.peers[j], to.peers[j]) && st.peers[j].box.offered <= to.peers[j].box.offered
      ensures Done(to.peers[j]) == Done(st.peers[j])
    {
      assert NeutralGrowth(st.peers, to.peers, j);
    }
    forall q | 0 <= q < |to.peers| ensures StreamOk(cfg, to, q) && ActsOk(to.peers, q) {
      assert StreamOk(cfg, st, q) && ActsOk(st.peers, q) && NeutralGrowth(st.peers, to.peers, q);
      StreamGrows(cfg, st, to, q);
      ActsStay(st.peers, to.peers, q);
    }
    forall k | k in to.sessions ensures CoupleOk(to.peers, to.sessions[k]) {
      assert SameCouple(st.sessions, to.sessions, k);
      if IsPaired(to.sessions[k]) {
        assert CoupleOk(st.peers, st.sessions[k]);
        CoupleStays(st.peers, to.peers, st.sessions[k], to.sessions[k]);
      }
    }
    forall n | 0 <= n < |to.pairings| ensures PairingOk(to.peers, to.pairings[n]) {
      assert PairingOk(st.peers, st.pairings[n]);
    }
  }

  // ----- a new act: `forward`, or a `leave` that empties a slot -----

  /** `p` acts; if the lookup found nobody there is nothing to send. */
  ghost predicate Acted(st: State, to: State, p: PeerId, act: Act)
    requires p < |st.peers|
  {
    && |to.peers| == |st.peers| && to.pairings == st.pairings
    && (forall i | 0 <= i < |st.peers| ::
          SameIdentity(st.peers[i], to.peers[i]) && to.peers[i].box == st.peers[i].box)
    && (forall i | 0 <= i < |st.peers| && i != p ::
          to.peers[i].acts == st.peers[i].acts && InFlight(to.peers[i]) == InFlight(st.peers[i]))
    && !InFlight(st.peers[p])
    && to.peers[p].acts == st.peers[p].acts + [act] && InFlight(to.peers[p]) == act.to.Some?
    && ActOk(st.peers, p, act)
    && (forall k | k in to.sessions :: SameCouple(st.sessions, to.sessions, k))
  }

  lemma ActedKeepsDone(st: State, to: State, p: PeerId, act: Act, i: PeerId, q: PeerId)
    requires p < |st.peers| && Acted(st, to, p, act) && i < |st.peers|
    ensures ActsTo(Done(to.peers[i]), q) == ActsTo(Done(st.peers[i]), q)
  {
    if i == p {
      assert (st.peers[p].acts + [act])[..|st.peers[p].acts|] == st.peers[p].acts;
      ActsToAppend(st.peers[p].acts, act, q);
    }
  }

  lemma ActedKeepsStreams(cfg: Config, st: State, to: State, p: PeerId, act: Act)
    requires StreamsOk(cfg, st) && p < |st.peers| && Acted(st, to, p, act)
    ensures StreamsOk(cfg, to)
  {
    forall q | 0 <= q < |to.peers| ensures StreamOk(cfg, to, q) {
      assert StreamOk(cfg, st, q);
      var offers := st.peers[q].box.offered;
      forall i | 0 <= i < |offers| ensures OfferOk(to.peers, q, offers, i) {
        assert OfferOk(st.peers, q, offers, i);
        OfferStays(st.peers, to.peers, q, offers, offers, i);
      }
      forall i | 0 <= i < |to.peers| ensures RelaysFrom(offers, i) == ActsTo(Done(to.peers[i]), q) {
        ActedKeepsDone(st, to, p, act, i, q);
      }
    }
    forall q | 0 <= q < |to.peers| ensures ActsOk(to.peers, q) {
      assert ActsOk(st.peers, q);
      forall n | 0 <= n < |to.peers[q].acts| ensures ActOk(to.peers, q, to.peers[q].acts[n]) {
        ActStays(st.peers, to.peers, q, to.peers[q].acts[n]);
      }
    }
    forall k | k in to.sessions ensures CoupleOk(to.peers, to.sessions[k]) {
      assert SameCouple(st.sessions, to.sessions, k);
      if IsPaired(to.sessions[k]) {
        assert CoupleOk(st.peers, st.sessions[k]);
        CoupleStays(st.peers, to.peers, st.sessions[k], to.sessions[k]);
      }
    }
    forall n | 0 <= n < |to.pairings| ensures PairingOk(to.peers, to.pairings[n]) {
      assert PairingOk(st.peers, st.pairings[n]);
    }
  }

  /** The locked lookup finds a peer that has already been offered the ready of this pair. */
  lemma LookupFindsPartner(cfg: Config, st: State, p: PeerId, frame: Frame)
    requires RegistryOk(cfg, st) && StreamsOk(cfg, st) && Seated(st, p) && (frame.Raw? || frame.Bye?)
    ensures ActOk(st.peers, p, Act(frame, Counterpart(st, p)))
  {
    var key := st.peers[p].key;
    assert SlotsOk(st.peers, key, st.sessions[key]) && CoupleOk(st.peers, st.sessions[key]);
  }

  // ----- the send that follows -----

  /** The pending act of `p` reaches its target as the offer `o`. */
  ghost predicate Delivered(st: State, to: State, p: PeerId, o: Offer)
    requires p < |st.peers|
  {
    && |to.peers| == |st.peers| && to.pairings == st.pairings && to.sessions == st.sessions
    && InFlight(st.peers[p]) && !InFlight(to.peers[p]) && st.peers[p].acts != []
    && var act := Last(st.peers[p]);
    && act.to.Some? && act.to.value < |st.peers|
    && o.frame == act.frame && o.cause == Relayed(p, |st.peers[p].acts| - 1)
    && (forall i | 0 <= i < |st.peers| ::
          SameIdentity(st.peers[i], to.peers[i]) && to.peers[i].acts == st.peers[i].acts)
    && (forall i | 0 <= i < |st.peers| && i != p :: InFlight(to.peers[i]) == InFlight(st.peers[i]))
    && (forall i | 0 <= i < |st.peers| ::
          to.peers[i].box.offered == st.peers[i].box.offered + if i == act.to.value then [o] else [])
  }

  /** The acts of `p` that are done grow by the one that was in flight. */
  lemma DeliveredDone(st: State, to: State, p: PeerId, o: Offer, q: PeerId)
    requires p < |st.peers| && Delivered(st, to, p, o)
    ensures ActsTo(Done(to.peers[p]), q) == ActsTo(Done(st.peers[p]), q)
              + if Last(st.peers[p]).to == Some(q) then [(o.cause.n, o.frame)] else []
  {
    var n := |st.peers[p].acts| - 1;
    assert st.peers[p].acts == st.peers[p].acts[..n] + [Last(st.peers[p])];
    ActsToAppend(st.peers[p].acts[..n], Last(st.peers[p]), q);
  }

  lemma DeliveredKeepsRelays(cfg: Config, st: State, to: State, p: PeerId, o: Offer, q: PeerId, i: PeerId)
    requires p < |st.peers| && Delivered(st, to, p, o) && q < |st.peers| && i < |st.peers|
    requires RelaysFrom(st.peers[q].box.offered, i) == ActsTo(Done(st.peers[i]), q)
    ensures RelaysFrom(to.peers[q].box.offered, i) == ActsTo(Done(to.peers[i]), q)
  {
    if i == p { DeliveredDone(st, to, p, o, q); } else { assert Done(to.peers[i]) == Done(st.peers[i]); }
    if Last(st.peers[p]).to == Some(q) {
      OffersAppend(st.peers[q].box.offered, o, i);
    } else {
      assert to.peers[q].box.offered == st.peers[q].box.offered;
    }
  }

  lemma DeliveredOffers(st: State, to: State, p: PeerId, o: Offer, q: PeerId)
    requires p < |st.peers| && Delivered(st, to, p, o) && q < |st.peers|
    requires ActOk(st.peers, p, Last(st.peers[p]))
    requires forall i | 0 <= i < |st.peers[q].box.offered| :: OfferOk(st.peers, q, st.peers[q].box.offered, i)
    ensures forall i | 0 <= i < |to.peers[q].box.offered| :: OfferOk(to.peers, q, to.peers[q].box.offered, i)
  {
    var was, now := st.peers[q].box.offered, to.peers[q].box.offered;
    forall i | 0 <= i < |now| ensures OfferOk(to.peers, q, now, i) {
      if i < |was| {
        OfferStays(st.peers, to.peers, q, was, now, i);
      } else {
        assert now[..i] == was;
      }
    }
  }

  lemma DeliveredKeepsStream(cfg: Config, st: State, to: State, p: PeerId, o: Offer, q: PeerId)
    requires StreamsOk(cfg, st) && p < |st.peers| && Delivered(st, to, p, o) && q < |st.peers|
    ensures StreamOk(cfg, to, q)
  {
    assert StreamOk(cfg, st, q) && ActsOk(st.peers, p);
    var was, now := st.peers[q].box.offered, to.peers[q].box.offered;
    assert ActOk(st.peers, p, st.peers[p].acts[|st.peers[p].acts| - 1]);
    DeliveredOffers(st, to, p, o, q);
    forall i | 0 <= i < |to.peers| ensures RelaysFrom(now, i) == ActsTo(Done(to.peers[i]), q) {
      DeliveredKeepsRelays(cfg, st, to, p, o, q, i);
    }
    OffersAppend(was, o, q);
    assert now == was || now == was + [o];
  }

  lemma DeliveredKeepsStreams(cfg: Config, st: State, to: State, p: PeerId, o: Offer)
    requires StreamsOk(cfg, st) && p < |st.peers| && Delivered(st, to, p, o)
    ensures StreamsOk(cfg, to)
  {
    forall q | 0 <= q < |to.peers| ensures StreamOk(cfg, to, q) && ActsOk(to.peers, q) {
      DeliveredKeepsStream(cfg, st, to, p, o, q);
      assert ActsOk(st.peers, q);
      ActsStay(st.peers, to.peers, q);
    }
    forall k | k in to.sessions ensures CoupleOk(to.peers, to.sessions[k]) {
      assert CoupleOk(st.peers, st.sessions[k]);
      CoupleStays(st.peers, to.peers, st.sessions[k], to.sessions[k]);
    }
    forall n | 0 <= n < |to.pairings| ensures PairingOk(to.peers, to.pairings[n]) {
      assert PairingOk(st.peers, st.pairings[n]);
    }
  }

  // ----- a join -----

  /** A new pairing is told to both its sides, once each. */
  lemma AdmittedStream(cfg: Config, st: State, to: State, a: Arrival, name: string, served: bool, q: PeerId)
    requires RegistryOk(cfg, st) && StreamsOk(cfg, st) && Sensible(st, a)
    requires Admitted(cfg, st, to, a, name, served) && q < a.p
    ensures StreamOk(cfg, to, q)
    ensures st.peers[q].box.offered <= to.peers[q].box.offered
  {
    HostsSettle(cfg, st, to, a, name, served);
    assert StreamOk(cfg, st, q);
    HostGrows(cfg, a, q, st.peers[q]);
    AdmittedOffers(st, to, a, q);
    AdmittedReadies(cfg, st, to, a, name, served, q);
    forall p | 0 <= p < |to.peers|
      ensures RelaysFrom(to.peers[q].box.offered, p) == ActsTo(Done(to.peers[p]), q)
    {
      AdmittedRelays(cfg, st, to, a, name, served, q, p);
    }
  }

  lemma AdmittedReadies(cfg: Config, st: State, to: State, a: Arrival, name: string, served: bool, q: PeerId)
    requires Sensible(st, a) && Admitted(cfg, st, to, a, name, served) && q < a.p
    requires Readies(st.peers[q].box.offered) == ReadiesFor(cfg, st.pairings, q)
    ensures Readies(to.peers[q].box.offered) == ReadiesFor(cfg, to.pairings, q)
  {
    HostGrows(cfg, a, q, st.peers[q]);
    var was, now := st.peers[q].box.offered, to.peers[q].box.offered;
    if a.other.Some? {
      ReadiesForAppend(cfg, st.pairings, PairOf(a), q);
      if a.other == Some(q) {
        OffersAppend(was, now[|was|], q);
      }
    } else {
      assert to.pairings == st.pairings;
    }
  }

  lemma AdmittedRelays(cfg: Config, st: State, to: State, a: Arrival, name: string, served: bool, q: PeerId, p: PeerId)
    requires Admitted(cfg, st, to, a, name, served) && q < a.p && p <= a.p
    requires StreamOk(cfg, st, q)
    ensures RelaysFrom(to.peers[q].box.offered, p) == ActsTo(Done(to.peers[p]), q)
  {
    HostsSettle(cfg, st, to, a, name, served);
    HostGrows(cfg, a, q, st.peers[q]);
    var was, now := st.peers[q].box.offered, to.peers[q].box.offered;
    if now != was { OffersAppend(was, now[|was|], p); }
    if p == a.p {
      forall i | 0 <= i < |was| && was[i].cause.Relayed? ensures was[i].cause.from != p {
        assert OfferOk(st.peers, q, was, i);
      }
      NoRelays(was, p);
    } else {
      assert Done(to.peers[p]) == Done(st.peers[p]);
    }
  }

  lemma HostGrows(cfg: Config, a: Arrival, i: PeerId, me: Peer)
    ensures var was, now := me.box.offered, Host(cfg, a, i, me).box.offered;
            && was <= now
            && (a.other != Some(i) ==> now == was)
            && (a.other == Some(i) ==>
                  && |now| == |was| + 1 && now == was + [now[|was|]]
                  && now[|was|].frame == ReadyFrame(cfg, a.session.token, me.role.Phone?)
                  && now[|was|].cause == Paired(PairOf(a).device, PairOf(a).phone))
  {
  }

  /** The offers already made stay in order, and a `ready` may follow them. */
  lemma AdmittedOffers(st: State, to: State, a: Arrival, q: PeerId)
    requires q < |st.peers| <= |to.peers|
    requires forall j | 0 <= j < |st.peers| :: SameIdentity(st.peers[j], to.peers[j])
    requires var was, now := st.peers[q].box.offered, to.peers[q].box.offered;
             && was != [] && (forall i | 0 <= i < |was| :: OfferOk(st.peers, q, was, i))
             && was <= now && |now| <= |was| + 1
             && (|now| > |was| ==> now[|was|].cause.Paired?)
    ensures forall i | 0 <= i < |to.peers[q].box.offered| :: OfferOk(to.peers, q, to.peers[q].box.offered, i)
  {
    var was, now := st.peers[q].box.offered, to.peers[q].box.offered;
    forall i | 0 <= i < |now| ensures OfferOk(to.peers, q, now, i) {
      if i < |was| {
        OfferStays(st.peers, to.peers, q, was, now, i);
      }
    }
  }

  /** The joiner is greeted first; a ready follows if a counterpart was waiting. */
  lemma GuestStream(cfg: Config, a: Arrival, name: string, served: bool)
    ensures var offers := Guest(cfg, a, name, served).box.offered;
            && |offers| == (if a.other.Some? then 2 else 1)
            && offers[0] == Offer(Joined, Welcome, true)
            && (a.other.Some? ==>
                  && offers[1].frame == ReadyFrame(cfg, a.session.token, a.role.Phone?)
                  && offers[1].cause == Paired(PairOf(a).device, PairOf(a).phone))
  {
  }

  /** The ready frames among a greeting: the second frame, if there is one. */
  lemma GreetingReadies(offers: seq<Offer>)
    requires 0 < |offers| <= 2 && !offers[0].cause.Paired?
    requires |offers| == 2 ==> offers[1].cause.Paired?
    ensures Readies(offers) == if |offers| == 2 then [(offers[1].cause, offers[1].frame)] else []
  {
    assert offers[..1] == [offers[0]] && offers[..1][..0] == [];
    assert Readies(offers[..1]) == [];
  }

  lemma StrangerUnpaired(cfg: Config, st: State, q: PeerId)
    requires StreamsOk(cfg, st) && q >= |st.peers|
    ensures ReadiesFor(cfg, st.pairings, q) == []
  {
    forall n | 0 <= n < |st.pairings| ensures st.pairings[n].device != q && st.pairings[n].phone != q {
      assert PairingOk(st.peers, st.pairings[n]);
    }
    NoPairings(cfg, st.pairings, q);
  }

  lemma NewcomerReadies(cfg: Config, st: State, to: State, a: Arrival, name: string, served: bool)
    requires StreamsOk(cfg, st) && Sensible(st, a) && Admitted(cfg, st, to, a, name, served)
    ensures Readies(to.peers[a.p].box.offered) == ReadiesFor(cfg, to.pairings, a.p)
  {
    GuestStream(cfg, a, name, served);
    GreetingReadies(to.peers[a.p].box.offered);
    StrangerUnpaired(cfg, st, a.p);
    if a.other.Some? {
      ReadiesForAppend(cfg, st.pairings, PairOf(a), a.p);
    } else {
      assert to.pairings == st.pairings;
    }
  }

  lemma NewcomerRelays(cfg: Config, st: State, to: State, a: Arrival, name: string, served: bool, p: PeerId)
    requires StreamsOk(cfg, st) && Sensible(st, a) && Admitted(cfg, st, to, a, name, served) && p < |to.peers|
    ensures RelaysFrom(to.peers[a.p].box.offered, p) == ActsTo(Done(to.peers[p]), a.p)
  {
    HostsSettle(cfg, st, to, a, name, served);
    GuestStream(cfg, a, name, served);
    NoRelays(to.peers[a.p].box.offered, p);
    if p < a.p {
      assert ActsOk(st.peers, p);
      forall n | 0 <= n < |st.peers[p].acts| ensures st.peers[p].acts[n].to != Some(a.p) {
        assert ActOk(st.peers, p, st.peers[p].acts[n]);
      }
    }
    NoActsTo(Done(to.peers[p]), a.p);
  }

  lemma NewcomerOffers(cfg: Config, st: State, to: State, a: Arrival, name: string, served: bool)
    requires Admitted(cfg, st, to, a, name, served)
    ensures var offers := to.peers[a.p].box.offered;
            offers != [] && forall i | 0 <= i < |offers| :: OfferOk(to.peers, a.p, offers, i)
  {
    GuestStream(cfg, a, name, served);
  }

  lemma NewcomerStream(cfg: Config, st: State, to: State, a: Arrival, name: string, served: bool)
    requires StreamsOk(cfg, st) && Sensible(st, a) && Admitted(cfg, st, to, a, name, served)
    ensures StreamOk(cfg, to, a.p)
  {
    NewcomerOffers(cfg, st, to, a, name, served);
    NewcomerReadies(cfg, st, to, a, name, served);
    forall p | 0 <= p < |to.peers|
      ensures RelaysFrom(to.peers[a.p].box.offered, p) == ActsTo(Done(to.peers[p]), a.p)
    {
      NewcomerRelays(cfg, st, to, a, name, served, p);
    }
  }

  lemma AdmittedKeepsStreams(cfg: Config, st: State, to: State, a: Arrival, name: string, served: bool)
    requires RegistryOk(cfg, st) && StreamsOk(cfg, st) && Sensible(st, a) && Fits(cfg, st, a, name)
    requires Admitted(cfg, st, to, a, name, served)
    ensures StreamsOk(cfg, to)
  {
    AllAdmittedStreams(cfg, st, to, a, name, served);
    AdmittedActs(cfg, st, to, a, name, served);
    AdmittedCouples(cfg, st, to, a, name, served);
  }

  lemma AllAdmittedStreams(cfg: Config, st: State, to: State, a: Arrival, name: string, served: bool)
    requires RegistryOk(cfg, st) && StreamsOk(cfg, st) && Sensible(st, a)
    requires Admitted(cfg, st, to, a, name, served)
    ensures forall q | 0 <= q < |to.peers| :: StreamOk(cfg, to, q)
    ensures forall q | 0 <= q < a.p :: st.peers[q].box.offered <= to.peers[q].box.offered
  {
    forall q | 0 <= q < |to.peers|
      ensures StreamOk(cfg, to, q) && (q < a.p ==> st.peers[q].box.offered <= to.peers[q].box.offered)
    {
      if q == a.p {
        NewcomerStream(cfg, st, to, a, name, served);
      } else {
        AdmittedStream(cfg, st, to, a, name, served, q);
      }
    }
  }

  lemma AdmittedActs(cfg: Config, st: State, to: State, a: Arrival, name: string, served: bool)
    requires StreamsOk(cfg, st) && Admitted(cfg, st, to, a, name, served)
    requires forall q | 0 <= q < a.p :: st.peers[q].box.offered <= to.peers[q].box.offered
    ensures forall p | 0 <= p < |to.peers| :: ActsOk(to.peers, p)
  {
    HostsSettle(cfg, st, to, a, name, served);
    forall p | 0 <= p < |to.peers| ensures ActsOk(to.peers, p) {
      if p < a.p {
        assert ActsOk(st.peers, p);
        ActsStay(st.peers, to.peers, p);
      }
    }
  }

  /** The joiner and the one it met have both been offered the ready of their pairing. */
  lemma NewCouple(cfg: Config, st: State, to: State, a: Arrival, name: string, served: bool)
    requires Sensible(st, a) && Admitted(cfg, st, to, a, name, served) && a.other.Some?
    ensures CoupleOk(to.peers, a.session)
  {
    hide Send;
    var q, pair := a.other.value, PairOf(a);
    GuestStream(cfg, a, name, served);
    assert to.peers[q] == Host(cfg, a, q, st.peers[q]);
    HostGrows(cfg, a, q, st.peers[q]);
    assert to.peers[q].box.offered[|st.peers[q].box.offered|].cause == Paired(pair.device, pair.phone);
    assert to.peers[a.p].box.offered[1].cause == Paired(pair.device, pair.phone);
  }

  lemma NewcomerPairing(cfg: Config, st: State, to: State, a: Arrival, name: string, served: bool)
    requires Sensible(st, a) && Fits(cfg, st, a, name) && Admitted(cfg, st, to, a, name, served) && a.other.Some?
    requires SlotsOk(st.peers, a.key, st.sessions[a.key])
    ensures PairingOk(to.peers, PairOf(a))
  {
    hide Send;
    HostsSettle(cfg, st, to, a, name, served);
  }

  lemma OldPairing(cfg: Config, st: State, to: State, a: Arrival, name: string, served: bool, pair: Pairing)
    requires Admitted(cfg, st, to, a, name, served) && PairingOk(st.peers, pair)
    ensures PairingOk(to.peers, pair)
  {
    hide Send, Host, Guest;
    HostsSettle(cfg, st, to, a, name, served);
  }

  lemma AdmittedCouples(cfg: Config, st: State, to: State, a: Arrival, name: string, served: bool)
    requires RegistryOk(cfg, st) && StreamsOk(cfg, st) && Sensible(st, a) && Fits(cfg, st, a, name)
    requires Admitted(cfg, st, to, a, name, served)
    requires forall q | 0 <= q < a.p :: st.peers[q].box.offered <= to.peers[q].box.offered
    ensures forall k | k in to.sessions :: CoupleOk(to.peers, to.sessions[k])
    ensures forall n | 0 <= n < |to.pairings| :: PairingOk(to.peers, to.pairings[n])
  {
    hide PeerOk, SessionOk, StreamOk, PairingOk, HasCause, Host, Guest, SlotsOk;
    if a.other.Some? {
      assert SlotsOk(st.peers, a.key, st.sessions[a.key]);
      NewCouple(cfg, st, to, a, name, served);
      NewcomerPairing(cfg, st, to, a, name, served);
    }
    forall k | k in to.sessions ensures CoupleOk(to.peers, to.sessions[k]) {
      if k != a.key {
        assert CoupleOk(st.peers, st.sessions[k]);
        CoupleStays(st.peers, to.peers, st.sessions[k], to.sessions[k]);
      }
    }
    forall n | 0 <= n < |to.pairings| ensures PairingOk(to.peers, to.pairings[n]) {
      if n < |st.pairings| {
        OldPairing(cfg, st, to, a, name, served, st.pairings[n]);
      }
    }
  }
}
