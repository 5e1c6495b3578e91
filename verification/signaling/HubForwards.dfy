/** What reaches a client's socket from its counterparts, told by the forward steps of the run. */
module HubForwards {
  import opened Protocol
  import opened PeerModel
  import opened HubModel
  import opened HubRegistry
  import opened HubJoin
  import opened HubLeave
  import opened HubStreams
  import opened HubInvariant
  import opened HubRuns
  import opened HubTheorems
  import opened HubClosing

  /** The bytes that `p` asked to forward, in order. */
  function ForwardsOf(steps: seq<Step>, p: PeerId): seq<seq<byte>>
  {
    if steps == [] then []
    else ForwardsOf(steps[..|steps| - 1], p) + ForwardIn(steps[|steps| - 1], p)
  }

  function ForwardIn(step: Step, p: PeerId): seq<seq<byte>>
  {
    if step.Forward? && step.p == p then [step.raw] else []
  }

  /** One act for each of `raws`, byte for byte, and then at most one bye. */
  ghost predicate Spells(acts: seq<Act>, raws: seq<seq<byte>>)
  {
    && |raws| <= |acts| <= |raws| + 1
    && (forall k | 0 <= k < |raws| :: acts[k].frame == Raw(raws[k]))
    && (|acts| == |raws| + 1 ==> acts[|raws|].frame == Bye)
  }

  /** A peer that has said bye has gone for good. */
  ghost predicate Spelled(st: State, p: PeerId, raws: seq<seq<byte>>)
    requires p < |st.peers|
  {
    && Spells(st.peers[p].acts, raws)
    && (|st.peers[p].acts| > |raws| ==> WentAway(st.peers[p]) && !Seated(st, p))
  }

  // ----- how a step adds to the acts -----

  /** The frame that a step adds to the acts of `p`, if any. */
  function ActedIn(st: State, step: Step, p: PeerId): seq<Frame>
  {
    if step.Forward? && step.p == p then [Raw(step.raw)]
    else if step == Leave(p) && Seated(st, p) then [Bye]
    else []
  }

  ghost predicate ActsBy(a: seq<Act>, b: seq<Act>, frames: seq<Frame>)
  {
    && |b| == |a| + |frames| && a <= b
    && forall k | 0 <= k < |frames| :: b[|a| + k].frame == frames[k]
  }

  lemma JoinActs(cfg: Config, st: State, m: JoinMessage, token: string, served: bool, p: PeerId)
    requires RegistryOk(cfg, st) && CheckJoin(m).None? && p <= |st.peers|
    ensures var to := JoinLock(cfg, st, m, token, served);
            && |to.peers| == |st.peers| + 1
            && to.peers[p].acts == if p < |st.peers| then st.peers[p].acts else []
  {
    hide Next, WellFormed, SessionOk;
    var mid := Admit(cfg, st, m, token, served);
    AdmitView(cfg, st, m, token, served);
    HostsSettle(cfg, st, mid, Arrive(cfg, st, m, token), m.session, served);
    AnnounceView(cfg, mid, |st.peers|, m.session);
    assert p < |st.peers| ==> Settled(st.peers[p], mid.peers[p]);
  }

  lemma QuietActs(cfg: Config, st: State, step: Step, p: PeerId)
    requires WellFormed(st) && Enabled(st, step) && !Locks(step) && p < |st.peers|
    ensures |Next(cfg, st, step).peers| == |st.peers|
    ensures ActsBy(st.peers[p].acts, Next(cfg, st, step).peers[p].acts, ActedIn(st, step, p))
  {
    hide Close, Seated, SlotsOk;
    if step.FinishJoin? || step.Relay? {
      assert TargetsOk(st.peers, st.peers[step.p]);
    }
  }

  lemma NextActs(cfg: Config, st: State, step: Step, p: PeerId)
    requires RegistryOk(cfg, st) && Enabled(st, step) && p < |st.peers|
    ensures p < |Next(cfg, st, step).peers|
    ensures ActsBy(st.peers[p].acts, Next(cfg, st, step).peers[p].acts, ActedIn(st, step, p))
  {
    hide JoinLock, LeaveLock, ForwardLock, RelaySend, ExpireLock, WellFormed, PeerOk, SessionOk;
    if step.Join? {
      JoinActs(cfg, st, step.m, step.token, step.served, p);
    } else if step.Leave? {
      LeaveView(st, step.p);
    } else if step.Expire? {
      ExpireView(st, step.p);
    } else if !step.Clear? {
      QuietActs(cfg, st, step, p);
    }
  }

  /** What `p` has said stays said, unless `p` itself goes on. */
  lemma OthersSpell(st: State, to: State, step: Step, p: PeerId, raws: seq<seq<byte>>)
    requires p < |st.peers| && p < |to.peers| && Spelled(st, p, raws) && step != Leave(p)
    requires ActsBy(st.peers[p].acts, to.peers[p].acts, ActedIn(st, step, p))
    requires Onward(st.peers[p], to.peers[p]) && (Seated(to, p) ==> Seated(st, p))
    requires step.Forward? && step.p == p ==> st.peers[p].task.Idle?
    ensures Spelled(to, p, raws + ForwardIn(step, p))
  {
    var a, b := st.peers[p].acts, to.peers[p].acts;
    assert raws + [] == raws;
    assert |b| > |a| ==> b[|a| + 0].frame == ActedIn(st, step, p)[0];
  }

  lemma LeaverSpells(st: State, to: State, p: PeerId, raws: seq<seq<byte>>)
    requires p < |st.peers| && p < |to.peers| && Spelled(st, p, raws)
    requires ActsBy(st.peers[p].acts, to.peers[p].acts, ActedIn(st, Leave(p), p))
    requires !Seated(to, p) && WentAway(to.peers[p])
    ensures Spelled(to, p, raws + ForwardIn(Leave(p), p))
  {
    var a, b := st.peers[p].acts, to.peers[p].acts;
    assert raws + [] == raws;
    assert |b| > |a| ==> b[|a| + 0].frame == ActedIn(st, Leave(p), p)[0];
  }

  lemma NextSpells(cfg: Config, st: State, step: Step, p: PeerId, raws: seq<seq<byte>>)
    requires RegistryOk(cfg, st) && Enabled(st, step) && p < |st.peers| && Spelled(st, p, raws)
    ensures p < |Next(cfg, st, step).peers|
    ensures Spelled(Next(cfg, st, step), p, raws + ForwardIn(step, p))
  {
    hide Spelled, ActsBy, ActedIn, ForwardIn, Seated;
    hide LeaveLock, JoinLock, ExpireLock, ClearLock, ForwardLock, RelaySend;
    NextActs(cfg, st, step, p);
    if step == Leave(p) {
      LeaveSeats(st, p, p);
      LeaveTask(st, p);
      LeaverSpells(st, LeaveLock(st, p), p, raws);
    } else {
      NextProceeds(cfg, st, step);
      NextSeats(cfg, st, step, p);
      OthersSpell(st, Next(cfg, st, step), step, p, raws);
    }
  }

  // ----- over a run -----

  lemma {:induction false} NoForwardYet(cfg: Config, states: seq<State>, steps: seq<Step>, i: nat, p: PeerId)
    requires IsRun(cfg, states, steps) && i < |states| && p >= |states[i].peers|
    ensures ForwardsOf(steps[..i], p) == []
  {
    hide Next;
    if i > 0 {
      assert StepAt(cfg, states, steps, i - 1);
      RunStep(cfg, states, steps, i - 1);
      NoForwardYet(cfg, states, steps, i - 1, p);
      assert steps[..i][..i - 1] == steps[..i - 1];
    }
  }

  lemma {:induction false} RunSpells(cfg: Config, states: seq<State>, steps: seq<Step>, i: nat, p: PeerId)
    requires IsRun(cfg, states, steps) && i < |states| && p < |states[i].peers|
    ensures Spelled(states[i], p, ForwardsOf(steps[..i], p))
  {
    hide Next, RegistryOk, StreamsOk;
    if i > 0 {
      assert StepAt(cfg, states, steps, i - 1);
      RunInv(cfg, states, steps, i - 1);
      assert steps[..i][..i - 1] == steps[..i - 1];
      if p < |states[i - 1].peers| {
        RunSpells(cfg, states, steps, i - 1, p);
        NextSpells(cfg, states[i - 1], steps[i - 1], p, ForwardsOf(steps[..i - 1], p));
      } else {
        NoForwardYet(cfg, states, steps, i - 1, p);
        NewcomerSpells(cfg, states[i - 1], steps[i - 1], p);
      }
    }
  }

  lemma NewcomerSpells(cfg: Config, st: State, step: Step, p: PeerId)
    requires RegistryOk(cfg, st) && Enabled(st, step)
    requires |st.peers| <= p < |Next(cfg, st, step).peers|
    ensures ForwardIn(step, p) == [] && Spelled(Next(cfg, st, step), p, [])
  {
    hide JoinLock, ForwardLock, RelaySend, LeaveLock, ExpireLock;
    if step.Join? {
      JoinActs(cfg, st, step.m, step.token, step.served, |st.peers|);
    } else if step.Leave? {
      LeaveView(st, step.p);
    } else if step.Expire? {
      ExpireView(st, step.p);
    } else if !step.Clear? {
      QuietView(cfg, st, step);
    }
  }

  /** The acts of a peer are the bytes of its forward steps, unchanged and in order, and then at most one
      bye, after which it is gone. */
  lemma ActsAreForwards(cfg: Config, states: seq<State>, steps: seq<Step>, i: nat, p: PeerId)
    requires IsRun(cfg, states, steps) && i < |states| && p < |states[i].peers|
    ensures var me, raws := states[i].peers[p], ForwardsOf(steps[..i], p);
            && Spells(me.acts, raws)
            && (|me.acts| > |raws| ==> WentAway(me) && !Seated(states[i], p))
  {
    RunSpells(cfg, states, steps, i, p);
  }

  // ----- on the wire -----

  /** The `w`-th frame on the wire is the offer `j`. */
  predicate OnWire(b: Outbox, w: nat, j: nat)
  {
    j < |b.offered| && b.offered[j].accepted && |Accepted(b.offered[..j])| == w
  }

  /** The `w`-th frame on the wire is the `n`-th act of `p`. */
  ghost predicate WireFrom(b: Outbox, w: nat, p: PeerId, n: nat)
  {
    exists j: nat :: OnWire(b, w, j) && b.offered[j].cause == Relayed(p, n)
  }

  /** What `p` is to be heard saying: its forwards, and a bye at the end. */
  function Said(raws: seq<seq<byte>>, n: nat): Frame
  {
    if n < |raws| then Raw(raws[n]) else Bye
  }

  lemma WireFrame(cfg: Config, b: Outbox, w: nat, j: nat)
    requires OutboxOk(cfg, b) && w < |b.written| && OnWire(b, w, j)
    ensures b.written[w] == b.offered[j].frame
  {
    AcceptedAt(b.offered, j);
    assert Accepted(b.offered)[w] == (b.written + b.lost + b.queue)[w];
  }

  lemma WireOrder(b: Outbox, v: nat, w: nat, j: nat, k: nat)
    requires v < w && OnWire(b, v, j) && OnWire(b, w, k)
    ensures j < k
  {
    if k < j {
      AcceptedAt(b.offered, k);
    }
  }

  /** One frame on `q`'s wire that came from `p`. */
  lemma WireIsSaid(cfg: Config, states: seq<State>, steps: seq<Step>, i: nat, p: PeerId, q: PeerId, w: nat, n: nat)
    requires IsRun(cfg, states, steps) && i < |states| && p < |states[i].peers| && q < |states[i].peers|
    requires w < |states[i].peers[q].box.written| && WireFrom(states[i].peers[q].box, w, p, n)
    ensures var b, raws := states[i].peers[q].box, ForwardsOf(steps[..i], p);
            n <= |raws| && b.written[w] == Said(raws, n)
  {
    hide IsRun, ForwardsOf, RelaysFrom, ActsTo, Accepted, Seated;
    QueueOk(cfg, states, steps, i, q);
    ActsAreForwards(cfg, states, steps, i, p);
    ForwardingIsFifo(cfg, states, steps, i, p, q);
    var st, b := states[i], states[i].peers[q].box;
    var j: nat :| OnWire(b, w, j) && b.offered[j].cause == Relayed(p, n);
    WireFrame(cfg, b, w, j);
    assert Done(st.peers[p])[n] == st.peers[p].acts[n];
  }

  /** Two frames on `q`'s wire that came from `p`. */
  lemma WireInOrder(cfg: Config, states: seq<State>, steps: seq<Step>, i: nat, p: PeerId, q: PeerId,
                    v: nat, w: nat, m: nat, n: nat)
    requires IsRun(cfg, states, steps) && i < |states| && p < |states[i].peers| && q < |states[i].peers|
    requires v < w && WireFrom(states[i].peers[q].box, v, p, m) && WireFrom(states[i].peers[q].box, w, p, n)
    ensures m < n
  {
    hide IsRun, RelaysFrom, ActsTo, Done;
    ForwardingIsFifo(cfg, states, steps, i, p, q);
    var b := states[i].peers[q].box;
    var j: nat :| OnWire(b, v, j) && b.offered[j].cause == Relayed(p, m);
    var k: nat :| OnWire(b, w, k) && b.offered[k].cause == Relayed(p, n);
    WireOrder(b, v, w, j, k);
  }

  /** The frames on `q`'s wire that came from `p` are frames `p` asked to forward, byte for byte, or its
      last word, and they come in the order in which `p` asked, none of them twice. */
  lemma WireFollowsForwards(cfg: Config, states: seq<State>, steps: seq<Step>, i: nat, p: PeerId, q: PeerId)
    requires IsRun(cfg, states, steps) && i < |states| && p < |states[i].peers| && q < |states[i].peers|
    ensures var b, raws := states[i].peers[q].box, ForwardsOf(steps[..i], p);
            && (forall w: nat, n: nat | w < |b.written| && WireFrom(b, w, p, n) ::
                  n <= |raws| && b.written[w] == Said(raws, n))
            && forall v: nat, w: nat, m: nat, n: nat
                 | v < w < |b.written| && WireFrom(b, v, p, m) && WireFrom(b, w, p, n) :: m < n
  {
    hide WireFrom, Said, ForwardsOf, StepAt;
    var b := states[i].peers[q].box;
    forall w: nat, n: nat | w < |b.written| && WireFrom(b, w, p, n)
      ensures n <= |ForwardsOf(steps[..i], p)| && b.written[w] == Said(ForwardsOf(steps[..i], p), n)
    {
      WireIsSaid(cfg, states, steps, i, p, q, w, n);
    }
    forall v: nat, w: nat, m: nat, n: nat | v < w < |b.written| && WireFrom(b, v, p, m) && WireFrom(b, w, p, n)
      ensures m < n
    {
      WireInOrder(cfg, states, steps, i, p, q, v, w, m, n);
    }
  }

  /** Every client frame on a wire came from a peer of the same session and the opposite role. */
  lemma WireHasSender(cfg: Config, states: seq<State>, steps: seq<Step>, i: nat, q: PeerId, w: nat)
    returns (p: PeerId, n: nat)
    requires IsRun(cfg, states, steps) && i < |states| && q < |states[i].peers|
    requires w < |states[i].peers[q].box.written| && states[i].peers[q].box.written[w].Raw?
    ensures p < |states[i].peers| && WireFrom(states[i].peers[q].box, w, p, n)
    ensures states[i].peers[p].role != states[i].peers[q].role
    ensures states[i].peers[p].key == states[i].peers[q].key
  {
    QueueOk(cfg, states, steps, i, q);
    var b := states[i].peers[q].box;
    var j := WirePlace(b.offered, w);
    WireFrame(cfg, b, w, j);
    p, n := RawHasSender(cfg, states, steps, i, q, j);
    assert OnWire(b, w, j);
  }

  lemma RawHasSender(cfg: Config, states: seq<State>, steps: seq<Step>, i: nat, q: PeerId, j: nat)
    returns (p: PeerId, n: nat)
    requires IsRun(cfg, states, steps) && i < |states| && q < |states[i].peers|
    requires j < |states[i].peers[q].box.offered| && states[i].peers[q].box.offered[j].frame.Raw?
    ensures p < |states[i].peers| && states[i].peers[q].box.offered[j].cause == Relayed(p, n)
    ensures states[i].peers[p].role != states[i].peers[q].role
    ensures states[i].peers[p].key == states[i].peers[q].key
  {
    hide IsRun, RegistryOk, BoxesOk, CountOk, CoverageOk, Readies, ReadiesFor;
    RunInv(cfg, states, steps, i);
    ReadyPerPairing(cfg, states, steps, i, q);
    var st, offers := states[i], states[i].peers[q].box.offered;
    assert StreamOk(cfg, st, q) && OfferOk(st.peers, q, offers, j);
    p, n := offers[j].cause.from, offers[j].cause.n;
    RelayAt(st, q, j, cfg);
    assert ActsOk(st.peers, p) && ActOk(st.peers, p, st.peers[p].acts[n]);
  }

  lemma {:induction false} WirePlace(offers: seq<Offer>, w: nat) returns (j: nat)
    requires w < |Accepted(offers)|
    ensures j < |offers| && offers[j].accepted && |Accepted(offers[..j])| == w
  {
    var front := offers[..|offers| - 1];
    if w < |Accepted(front)| {
      j := WirePlace(front, w);
      assert offers[..j] == front[..j];
    } else {
      j := |offers| - 1;
    }
  }
}
