/** The filtered histories, read entry by entry. */
module StreamMeaning {
  import opened Protocol
  import opened PeerModel
  import opened HubModel
  import opened HubStreams

  // ----- Readies -----

  lemma {:induction false} ReadiesAt(offers: seq<Offer>, i: nat)
    requires i < |offers| && offers[i].cause.Paired?
    ensures |Readies(offers[..i])| < |Readies(offers)|
    ensures Readies(offers)[|Readies(offers[..i])|] == (offers[i].cause, offers[i].frame)
  {
    var front := offers[..|offers| - 1];
    if i < |front| {
      ReadiesAt(front, i);
      assert front[..i] == offers[..i];
    }
  }

  lemma {:induction false} ReadiesFrom(offers: seq<Offer>, r: nat) returns (i: nat)
    requires r < |Readies(offers)|
    ensures i < |offers| && offers[i].cause.Paired? && Readies(offers)[r] == (offers[i].cause, offers[i].frame)
  {
    var front := offers[..|offers| - 1];
    if r < |Readies(front)| {
      i := ReadiesFrom(front, r);
    } else {
      i := |offers| - 1;
    }
  }

  /** Earlier offers have earlier places. */
  lemma ReadiesOrder(offers: seq<Offer>, i: nat, j: nat)
    requires i < j < |offers| && offers[i].cause.Paired?
    ensures |Readies(offers[..i])| < |Readies(offers[..j])|
  {
    ReadiesAt(offers[..j], i);
    assert offers[..j][..i] == offers[..i];
  }

  // ----- RelaysFrom -----

  lemma {:induction false} RelaysAt(offers: seq<Offer>, i: nat, p: PeerId)
    requires i < |offers| && offers[i].cause.Relayed? && offers[i].cause.from == p
    ensures |RelaysFrom(offers[..i], p)| < |RelaysFrom(offers, p)|
    ensures RelaysFrom(offers, p)[|RelaysFrom(offers[..i], p)|] == (offers[i].cause.n, offers[i].frame)
  {
    var front := offers[..|offers| - 1];
    if i < |front| {
      RelaysAt(front, i, p);
      assert front[..i] == offers[..i];
    }
  }

  lemma {:induction false} RelaysBack(offers: seq<Offer>, r: nat, p: PeerId) returns (i: nat)
    requires r < |RelaysFrom(offers, p)|
    ensures i < |offers| && offers[i].cause.Relayed? && offers[i].cause.from == p
    ensures RelaysFrom(offers, p)[r] == (offers[i].cause.n, offers[i].frame)
  {
    var front := offers[..|offers| - 1];
    if r < |RelaysFrom(front, p)| {
      i := RelaysBack(front, r, p);
    } else {
      i := |offers| - 1;
    }
  }

  lemma RelaysOrder(offers: seq<Offer>, i: nat, j: nat, p: PeerId)
    requires i < j < |offers| && offers[i].cause.Relayed? && offers[i].cause.from == p
    ensures |RelaysFrom(offers[..i], p)| < |RelaysFrom(offers[..j], p)|
  {
    RelaysAt(offers[..j], i, p);
    assert offers[..j][..i] == offers[..i];
  }

  // ----- ActsTo -----

  lemma {:induction false} ActsToEntries(acts: seq<Act>, q: PeerId)
    ensures forall r | 0 <= r < |ActsTo(acts, q)| ::
              var e := ActsTo(acts, q)[r];
              e.0 < |acts| && acts[e.0] == Act(e.1, Some(q))
    ensures forall r, s | 0 <= r < s < |ActsTo(acts, q)| :: ActsTo(acts, q)[r].0 < ActsTo(acts, q)[s].0
  {
    if acts != [] {
      ActsToEntries(acts[..|acts| - 1], q);
    }
  }

  lemma {:induction false} ActsToHas(acts: seq<Act>, n: nat, q: PeerId) returns (r: nat)
    requires n < |acts| && acts[n].to == Some(q)
    ensures r < |ActsTo(acts, q)| && ActsTo(acts, q)[r] == (n, acts[n].frame)
  {
    if n == |acts| - 1 {
      r := |ActsTo(acts[..n], q)|;
    } else {
      r := ActsToHas(acts[..|acts| - 1], n, q);
    }
  }

  // ----- ReadiesFor -----

  function CauseOf(pair: Pairing): Cause
  {
    Paired(pair.device, pair.phone)
  }

  lemma {:induction false} ReadiesForBack(cfg: Config, pairings: seq<Pairing>, q: PeerId, r: nat) returns (n: nat)
    requires r < |ReadiesFor(cfg, pairings, q)|
    ensures n < |pairings| && (pairings[n].device == q || pairings[n].phone == q)
    ensures |ReadiesFor(cfg, pairings[..n], q)| == r
    ensures ReadiesFor(cfg, pairings, q)[r]
         == (CauseOf(pairings[n]), ReadyFrame(cfg, pairings[n].token, pairings[n].phone == q))
  {
    var front := pairings[..|pairings| - 1];
    if r < |ReadiesFor(cfg, front, q)| {
      n := ReadiesForBack(cfg, front, q, r);
      assert front[..n] == pairings[..n];
    } else {
      n := |pairings| - 1;
    }
  }

  lemma {:induction false} ReadiesForAt(cfg: Config, pairings: seq<Pairing>, q: PeerId, n: nat)
    requires n < |pairings| && (pairings[n].device == q || pairings[n].phone == q)
    ensures |ReadiesFor(cfg, pairings[..n], q)| < |ReadiesFor(cfg, pairings, q)|
    ensures ReadiesFor(cfg, pairings, q)[|ReadiesFor(cfg, pairings[..n], q)|]
         == (CauseOf(pairings[n]), ReadyFrame(cfg, pairings[n].token, pairings[n].phone == q))
  {
    var front := pairings[..|pairings| - 1];
    if n < |front| {
      ReadiesForAt(cfg, front, q, n);
      assert front[..n] == pairings[..n];
    }
  }
}
