/** The hub as an object: the registry in its fields, and every operation proved to take exactly
    the steps of the state machine. */
module Hub {
  import opened Protocol
  import opened Connection
  import PM = PeerModel
  import HM = HubModel
  import HL = HubLeave
  import Runs = HubRuns
  import HR = HubRegistry
  import Outcomes = HubOutcomes

  /** A timer made by time.AfterFunc. It is pending until it fires or is stopped. */
  class LonelyTimer {
    const device: Peer
    var pending: bool

    constructor (device: Peer)
      ensures this.device == device && pending
    {
      this.device := device;
      pending := true;
    }

    method Stop()
      modifies this
      ensures !pending
    {
      pending := false;
    }
  }

  class Session {
    const id: string
    const name: string
    const turnToken: string
    var imei: string
    var device: Peer?
    var phone: Peer?
    var readySent: bool
    var lonely: LonelyTimer?

    constructor (id: string, name: string, turnToken: string)
      ensures this.id == id && this.name == name && this.turnToken == turnToken
      ensures imei == "" && device == null && phone == null && !readySent && lonely == null
    {
      this.id, this.name, this.turnToken := id, name, turnToken;
      imei, device, phone, readySent, lonely := "", null, null, false, null;
    }

    function Slot(role: Role): Peer?
      reads this
    {
      if role.Device? then device else phone
    }

    function Other(role: Role): Peer?
      reads this
    {
      if role.Device? then phone else device
    }

    predicate IsEmpty()
      reads this
    {
      device == null && phone == null
    }

    method SetSlot(role: Role, p: Peer?)
      modifies this`device, this`phone
      ensures device == (if role.Device? then p else old(device))
      ensures phone == (if role.Phone? then p else old(phone))
    {
      if role.Device? {
        device := p;
      } else {
        phone := p;
      }
    }
  }

  /** What a read from the socket gives. */
  datatype Input = Text(raw: seq<byte>) | Binary(raw: seq<byte>) | ReadError

  /** What a client frame asks for, going by its type. */
  datatype Request = PassOn | SayBye | Ignore

  function Classify(frameType: Option<string>): Request
  {
    if frameType == Some("offer") || frameType == Some("answer") || frameType == Some("candidate") then PassOn
    else if frameType == Some("bye") then SayBye
    else Ignore
  }

  /** The frames a read loop hands to `forward`: every offer, answer and candidate that comes as text
      before the first bye or read error. */
  function Passed(parse: seq<byte> -> Option<string>, inputs: seq<Input>): seq<seq<byte>>
  {
    if inputs == [] || inputs[0].ReadError? then []
    else if inputs[0].Binary? then Passed(parse, inputs[1..])
    else
      match Classify(parse(inputs[0].raw))
      case SayBye => []
      case PassOn => [inputs[0].raw] + Passed(parse, inputs[1..])
      case Ignore => Passed(parse, inputs[1..])
  }

  /** What one input adds to what was passed on, and whether it ends the reading. */
  function Forwards(parse: seq<byte> -> Option<string>, input: Input): seq<seq<byte>>
  {
    if input.Text? && Classify(parse(input.raw)).PassOn? then [input.raw] else []
  }

  predicate EndsReading(parse: seq<byte> -> Option<string>, input: Input)
  {
    input.ReadError? || (input.Text? && Classify(parse(input.raw)).SayBye?)
  }

  /** Whether the reading ends with a bye of the client. */
  predicate SaysBye(parse: seq<byte> -> Option<string>, inputs: seq<Input>)
  {
    inputs != [] &&
    if EndsReading(parse, inputs[0]) then inputs[0].Text? else SaysBye(parse, inputs[1..])
  }

  /** An offer, an answer or a candidate, as text. */
  predicate IsSignal(parse: seq<byte> -> Option<string>, input: Input)
  {
    input.Text? && parse(input.raw) in {Some("offer"), Some("answer"), Some("candidate")}
  }

  predicate EndsTalk(parse: seq<byte> -> Option<string>, input: Input)
  {
    input.ReadError? || (input.Text? && parse(input.raw) == Some("bye"))
  }

  /** `stop` is the place of the first bye or read error, if there is one; `at` are the places of the
      offers, answers and candidates before it, in order; and `passed` are their bytes. */
  ghost predicate Selects(parse: seq<byte> -> Option<string>, inputs: seq<Input>, stop: nat, at: seq<nat>,
                          passed: seq<seq<byte>>)
  {
    && stop <= |inputs| && (stop < |inputs| ==> EndsTalk(parse, inputs[stop]))
    && (forall i | 0 <= i < stop :: !EndsTalk(parse, inputs[i]))
    && |at| == |passed|
    && (forall k | 0 <= k < |at| ::
          at[k] < stop && IsSignal(parse, inputs[at[k]]) && inputs[at[k]].raw == passed[k])
    && (forall j, k | 0 <= j < k < |at| :: at[j] < at[k])
    && forall i | 0 <= i < stop && IsSignal(parse, inputs[i]) :: i in at
  }

  /** What is passed on, told by the types of the frames. */
  lemma {:induction false} PassedAre(parse: seq<byte> -> Option<string>, inputs: seq<Input>)
    returns (stop: nat, at: seq<nat>)
    ensures Selects(parse, inputs, stop, at, Passed(parse, inputs))
    ensures SaysBye(parse, inputs) <==> stop < |inputs| && inputs[stop].Text?
  {
    hide Selects;
    if inputs == [] || EndsTalk(parse, inputs[0]) {
      stop, at := 0, [];
      SelectsNone(parse, inputs);
    } else {
      var s, rest := PassedAre(parse, inputs[1..]);
      var later := seq(|rest|, k requires 0 <= k < |rest| => rest[k] + 1);
      stop, at := s + 1, (if IsSignal(parse, inputs[0]) then [0] else []) + later;
      SelectsMore(parse, inputs, s, rest, later, Passed(parse, inputs[1..]));
      PassedTyped(parse, inputs);
    }
  }

  lemma SelectsNone(parse: seq<byte> -> Option<string>, inputs: seq<Input>)
    requires inputs == [] || EndsTalk(parse, inputs[0])
    ensures Selects(parse, inputs, 0, [], Passed(parse, inputs))
    ensures SaysBye(parse, inputs) <==> inputs != [] && inputs[0].Text?
  {
  }

  lemma PassedTyped(parse: seq<byte> -> Option<string>, inputs: seq<Input>)
    requires inputs != [] && !EndsTalk(parse, inputs[0])
    ensures Passed(parse, inputs)
         == (if IsSignal(parse, inputs[0]) then [inputs[0].raw] else []) + Passed(parse, inputs[1..])
    ensures SaysBye(parse, inputs) == SaysBye(parse, inputs[1..])
  {
  }

  lemma SelectsMore(parse: seq<byte> -> Option<string>, inputs: seq<Input>, stop: nat, rest: seq<nat>,
                    later: seq<nat>, passed: seq<seq<byte>>)
    requires inputs != [] && !EndsTalk(parse, inputs[0]) && Selects(parse, inputs[1..], stop, rest, passed)
    requires |later| == |rest| && forall k | 0 <= k < |rest| :: later[k] == rest[k] + 1
    ensures Selects(parse, inputs, stop + 1, (if IsSignal(parse, inputs[0]) then [0] else []) + later,
                    (if IsSignal(parse, inputs[0]) then [inputs[0].raw] else []) + passed)
  {
    hide EndsTalk;
    forall i | 0 < i < stop + 1 && IsSignal(parse, inputs[i]) ensures i in later {
      assert inputs[1..][i - 1] == inputs[i];
      var k :| 0 <= k < |rest| && rest[k] == i - 1;
      assert later[k] == i;
    }
    forall i | 0 <= i < stop + 1 ensures !EndsTalk(parse, inputs[i]) {
      if i > 0 {
        assert inputs[1..][i - 1] == inputs[i];
      }
    }
  }

  lemma PassedFirst(parse: seq<byte> -> Option<string>, inputs: seq<Input>)
    requires inputs != []
    ensures Passed(parse, inputs)
         == if EndsReading(parse, inputs[0]) then Forwards(parse, inputs[0])
            else Forwards(parse, inputs[0]) + Passed(parse, inputs[1..])
  {
  }

  lemma PassedStep(parse: seq<byte> -> Option<string>, inputs: seq<Input>, i: nat, done: seq<seq<byte>>)
    requires i < |inputs| && Passed(parse, inputs) == done + Passed(parse, inputs[i..])
    ensures var now := done + Forwards(parse, inputs[i]);
      Passed(parse, inputs) == if EndsReading(parse, inputs[i]) then now else now + Passed(parse, inputs[i + 1..])
    ensures SaysBye(parse, inputs[i..])
         == if EndsReading(parse, inputs[i]) then inputs[i].Text? else SaysBye(parse, inputs[i + 1..])
  {
    PassedFirst(parse, inputs[i..]);
    assert inputs[i..][1..] == inputs[i + 1..];
    Associate(done, Forwards(parse, inputs[i]), Passed(parse, inputs[i + 1..]));
  }

  lemma Associate(a: seq<seq<byte>>, b: seq<seq<byte>>, c: seq<seq<byte>>)
    ensures a + (b + c) == a + b + c
  {
  }

  /** `b` is `a` followed by one act for each of `raws`, byte for byte. */
  ghost predicate ActsGrow(a: seq<PM.Act>, b: seq<PM.Act>, raws: seq<seq<byte>>)
  {
    && |b| == |a| + |raws| && b[..|a|] == a
    && forall k | 0 <= k < |raws| :: b[|a| + k].frame == Raw(raws[k])
  }

  lemma ActsGrowOne(a: seq<PM.Act>, act: PM.Act, raw: seq<byte>)
    requires act.frame == Raw(raw)
    ensures ActsGrow(a, a + [act], [raw])
  {
  }

  lemma ActsGrowMore(a: seq<PM.Act>, b: seq<PM.Act>, c: seq<PM.Act>, xs: seq<seq<byte>>, ys: seq<seq<byte>>)
    requires ActsGrow(a, b, xs) && ActsGrow(b, c, ys)
    ensures ActsGrow(a, c, xs + ys)
  {
    assert c[..|a|] == c[..|b|][..|a|] == a;
    forall k | 0 <= k < |xs + ys| ensures c[|a| + k].frame == Raw((xs + ys)[k]) {
      if k < |xs| {
        assert c[|a| + k] == c[..|b|][|a| + k] == b[|a| + k];
      } else {
        assert c[|b| + (k - |xs|)].frame == Raw(ys[k - |xs|]);
      }
    }
  }

  /** The join message of a first frame, if it is one. */
  function AwaitJoin(parse: seq<byte> -> Option<string>, decode: seq<byte> -> Option<JoinMessage>,
                     first: Input): Option<JoinMessage>
  {
    if first.ReadError? || parse(first.raw) != Some("join") then None else decode(first.raw)
  }

  class Hub {
    const cfg: Config
    var sessions: map<string, Session>
    var sessionsActive: int
    ghost var peers: seq<Peer>              // in the order of joins
    ghost var timers: seq<LonelyTimer?>     // the timer each peer was given, if any
    ghost var model: HM.State
    ghost var Repr: set<object>

    // ----- the fields agree with the model -----

    static ghost predicate Ref(peers: seq<Peer>, p: Peer?, id: Option<PM.PeerId>)
    {
      && (p == null <==> id.None?)
      && (id.Some? ==> id.value < |peers| && p == peers[id.value])
    }

    static ghost predicate SessionMatches(peers: seq<Peer>, timers: seq<LonelyTimer?>, s: Session, m: HM.Session)
      reads s
    {
      && s.name == m.name && s.imei == m.imei && s.turnToken == m.token && s.readySent == m.readySent
      && Ref(peers, s.device, m.device) && Ref(peers, s.phone, m.phone)
      && (s.lonely == null <==> m.lonely.None?)
      && (m.lonely.Some? ==> m.lonely.value < |timers| && s.lonely == timers[m.lonely.value])
    }

    static ghost predicate PeerMatches(cfg: Config, p: Peer, m: PM.Peer, i: nat)
      reads p, p.conn
    {
      && p.Valid() && p.pid == i && p.cfg == cfg
      && p.role == m.role && p.sessionID == m.key && p.name == m.name && p.served == m.served
      && p.box == m.box
    }

    static ghost predicate TimerMatches(t: LonelyTimer?, p: Peer, m: PM.Timer)
      reads t
    {
      && (t == null <==> m.NoTimer?)
      && (t != null ==> t.device == p && t.pending == m.Armed?)
    }

    ghost predicate Owns()
      reads `sessions, `sessionsActive, `peers, `timers, `Repr, Repr
    {
      && this !in Repr
      && (forall i | 0 <= i < |peers| :: peers[i] in Repr && peers[i].conn in Repr)
      && (forall i | 0 <= i < |timers| && timers[i] != null :: timers[i] in Repr)
      && (forall k | k in sessions :: sessions[k] in Repr)
    }

    ghost predicate PeersMatch(st: HM.State)
      requires Owns()
      reads `sessions, `sessionsActive, `peers, `timers, `Repr, Repr
    {
      && |peers| == |timers| == |st.peers|
      && (forall i | 0 <= i < |peers| :: PeerMatches(cfg, peers[i], st.peers[i], i))
      && (forall i | 0 <= i < |peers| :: TimerMatches(timers[i], peers[i], st.peers[i].timer))
    }

    ghost predicate SessionsMatch(st: HM.State)
      requires Owns()
      reads `sessions, `sessionsActive, `peers, `timers, `Repr, Repr
    {
      && sessions.Keys == st.sessions.Keys
      && (forall k | k in sessions ::
            sessions[k].id == k && SessionMatches(peers, timers, sessions[k], st.sessions[k]))
      && sessionsActive == st.gauge
    }

    ghost predicate Models(st: HM.State)
      reads `sessions, `sessionsActive, `peers, `timers, `Repr, Repr
    {
      Owns() && PeersMatch(st) && SessionsMatch(st)
    }

    /** As `Models`, but for the session of `key`. */
    ghost predicate ModelsBut(st: HM.State, key: string)
      reads `sessions, `sessionsActive, `peers, `timers, `Repr, Repr
    {
      && Owns() && PeersMatch(st)
      && sessions.Keys == st.sessions.Keys && sessionsActive == st.gauge
      && forall k | k in sessions ::
           sessions[k].id == k && (k != key ==> SessionMatches(peers, timers, sessions[k], st.sessions[k]))
    }

    ghost predicate Matches()
      reads this, Repr
    {
      Models(model)
    }

    /** A session may be rewritten without a look at the others. */
    lemma Rewritten(st: HM.State, to: HM.State, key: string, m: HM.Session)
      requires ModelsBut(st, key) && key in sessions && SessionMatches(peers, timers, sessions[key], m)
      requires to.sessions == st.sessions[key := m] && to.peers == st.peers && to.gauge == st.gauge
      ensures Models(to)
    {
    }

    /** The model takes over the rewritten session. */
    ghost method Adopt(to: HM.State, key: string, m: HM.Session)
      requires ModelsBut(model, key) && key in sessions && SessionMatches(peers, timers, sessions[key], m)
      requires to.sessions == model.sessions[key := m] && to.peers == model.peers && to.gauge == model.gauge
      modifies this`model
      ensures Matches() && model == to
    {
      hide HM.Next;
      Rewritten(model, to, key, m);
      model := to;
    }

    lemma Apart(s: Session)
      requires Matches() && s.id in sessions && sessions[s.id] == s
      ensures forall k | k in sessions && k != s.id :: sessions[k] != s
    {
    }

    ghost predicate Valid()
      reads this, Repr
    {
      Matches() && Runs.Reachable(cfg, model)
    }

    /** The object of a peer of this hub. */
    ghost predicate Knows(p: Peer)
      reads this
    {
      p.pid < |peers| && peers[p.pid] == p
    }

    constructor (cfg: Config)
      ensures Valid() && fresh(Repr) && model == HM.Init && this.cfg == cfg
    {
      this.cfg := cfg;
      sessions, sessionsActive := map[], 0;
      peers, timers, model := [], [], HM.Init;
      Repr := {};
      new;
      Runs.InitReachable(cfg);
    }

    // ----- effects on one peer -----

    /** As `Models`, but for the channels of `p`. */
    ghost predicate ModelsButPeer(st: HM.State, p: PM.PeerId)
      reads `sessions, `sessionsActive, `peers, `timers, `Repr, Repr
    {
      && Owns() && SessionsMatch(st) && |peers| == |timers| == |st.peers|
      && (forall i | 0 <= i < |peers| && i != p :: PeerMatches(cfg, peers[i], st.peers[i], i))
      && (forall i | 0 <= i < |peers| :: TimerMatches(timers[i], peers[i], st.peers[i].timer))
    }

    /** The model takes over what has become of the channels of `p`. */
    ghost method AdoptPeer(p: PM.PeerId, m: PM.Peer)
      requires ModelsButPeer(model, p) && p < |peers|
      requires PeerMatches(cfg, peers[p], m, p) && m.timer == model.peers[p].timer
      modifies this`model
      ensures Matches() && model == HM.SetPeer(old(model), p, m)
    {
      hide PeerMatches, SessionMatches;
      model := HM.SetPeer(model, p, m);
    }

    /** No two peers of the hub share an object. */
    lemma PeersApart(p: Peer)
      requires Matches() && Knows(p)
      ensures forall i | 0 <= i < |peers| && i != p.pid :: peers[i] != p && peers[i].conn != p.conn
    {
      hide SessionMatches, TimerMatches;
      forall i | 0 <= i < |peers| ensures peers[i].pid == i && peers[i].conn.pid == i {
        assert PeerMatches(cfg, peers[i], model.peers[i], i);
      }
    }

    method SendAlone(p: Peer, ghost m: PM.Peer, frame: Frame, ghost cause: PM.Cause)
      requires Matches() && Knows(p) && m == model.peers[p.pid]
      modifies p, p.conn
      ensures ModelsButPeer(model, p.pid)
      ensures PeerMatches(cfg, p, m.(box := PM.Send(cfg, m.box, frame, cause)), p.pid)
    {
      PeersApart(p);
      hide SessionMatches, TimerMatches, PM.Send;
      p.Send(frame, cause);
    }

    method CloseAlone(p: Peer, ghost m: PM.Peer, reason: string)
      requires Matches() && Knows(p) && m == model.peers[p.pid]
      modifies p, p.conn
      ensures ModelsButPeer(model, p.pid)
      ensures PeerMatches(cfg, p, m.(box := PM.Close(m.box, reason)), p.pid)
    {
      PeersApart(p);
      hide SessionMatches, TimerMatches, PM.Close;
      p.Close(reason);
    }

    /** `peer.send` on a peer of this hub. */
    method SendTo(p: Peer, frame: Frame, ghost cause: PM.Cause)
      requires Matches() && Knows(p)
      modifies this`model, p, p.conn
      ensures Matches() && model == HM.OfferTo(cfg, old(model), p.pid, frame, cause)
    {
      ghost var m := model.peers[p.pid];
      SendAlone(p, m, frame, cause);
      AdoptPeer(p.pid, m.(box := PM.Send(cfg, m.box, frame, cause)));
    }

    method ClosePeer(p: Peer, reason: string)
      requires Matches() && Knows(p)
      modifies this`model, p, p.conn
      ensures Matches() && model == HM.SetBox(old(model), p.pid, PM.Close(old(model).peers[p.pid].box, reason))
    {
      ghost var m := model.peers[p.pid];
      CloseAlone(p, m, reason);
      AdoptPeer(p.pid, m.(box := PM.Close(m.box, reason)));
    }

    /** `session.stopLonely`. */
    method StopLonely(s: Session)
      requires Matches() && s.id in sessions && sessions[s.id] == s
      requires HM.SlotsOk(model.peers, s.id, model.sessions[s.id])
      modifies this`model, s`lonely, s.lonely
      ensures Matches() && model == HM.StopLonely(old(model), s.id)
      ensures s.lonely == null && (old(s.lonely) != null ==> !old(s.lonely).pending)
    {
      if s.lonely != null {
        ghost var d := model.sessions[s.id].lonely.value;
        StopTimer(d, s.lonely);
        ForgetTimer(s);
      }
    }

    method ForgetTimer(s: Session)
      requires Matches() && s.id in sessions && sessions[s.id] == s
      modifies this`model, s`lonely
      ensures Matches()
      ensures model == HM.SetSession(old(model), s.id, old(model).sessions[s.id].(lonely := None))
    {
      Apart(s);
      s.lonely := null;
      ghost var m := model.sessions[s.id].(lonely := None);
      Adopt(HM.SetSession(model, s.id, m), s.id, m);
    }

    /** No two peers share a timer. */
    lemma TimersApart(d: PM.PeerId, t: LonelyTimer)
      requires Matches() && d < |peers| && timers[d] == t
      ensures forall i | 0 <= i < |timers| && i != d :: timers[i] != t
    {
      forall i | 0 <= i < |timers| && timers[i] != null ensures timers[i].device.pid == i {
        assert PeerMatches(cfg, peers[i], model.peers[i], i);
      }
    }

    /** As `Models`, but for the timer of `d`. */
    ghost predicate ModelsButTimer(st: HM.State, d: PM.PeerId)
      reads `sessions, `sessionsActive, `peers, `timers, `Repr, Repr
    {
      && Owns() && SessionsMatch(st) && |peers| == |timers| == |st.peers|
      && (forall i | 0 <= i < |peers| :: PeerMatches(cfg, peers[i], st.peers[i], i))
      && (forall i | 0 <= i < |peers| && i != d :: TimerMatches(timers[i], peers[i], st.peers[i].timer))
    }

    /** The model takes over what has become of the timer of `d`. */
    ghost method AdoptTimer(d: PM.PeerId, timer: PM.Timer)
      requires ModelsButTimer(model, d) && d < |peers| && TimerMatches(timers[d], peers[d], timer)
      modifies this`model
      ensures Matches() && model == HM.SetPeer(old(model), d, old(model).peers[d].(timer := timer))
    {
      hide TimerMatches, SessionMatches;
      model := HM.SetPeer(model, d, model.peers[d].(timer := timer));
    }

    /** The timer is no longer pending, for one reason or the other. */
    method Disarm(ghost d: PM.PeerId, t: LonelyTimer)
      requires Matches() && d < |peers| && timers[d] == t
      modifies t
      ensures ModelsButTimer(model, d) && !t.pending && t.device == peers[d] && !model.peers[d].timer.NoTimer?
    {
      assert TimerMatches(t, peers[d], model.peers[d].timer);
      TimersApart(d, t);
      hide PeerMatches, SessionMatches, TimerMatches;
      t.Stop();
    }

    method StopTimer(ghost d: PM.PeerId, t: LonelyTimer)
      requires Matches() && d < |peers| && timers[d] == t
      modifies this`model, t
      ensures Matches() && model == HM.SetPeer(old(model), d, HM.StopTimer(old(model).peers[d]))
    {
      hide PeerMatches, SessionsMatch;
      Disarm(d, t);
      AdoptTimer(d, HM.StopTimer(model.peers[d]).timer);
    }

    /** The timer is no longer pending: it has fired. */
    method Elapse(ghost d: PM.PeerId, t: LonelyTimer)
      requires Matches() && d < |peers| && timers[d] == t
      modifies this`model, t
      ensures Matches() && model == HM.SetPeer(old(model), d, old(model).peers[d].(timer := PM.Fired))
    {
      hide PeerMatches, SessionsMatch;
      Disarm(d, t);
      AdoptTimer(d, PM.Fired);
    }

    // ----- join -----

    /** Finds or creates the session of `key`. */
    method FindSession(key: string, name: string, token: string) returns (s: Session)
      requires Matches()
      modifies this
      ensures Matches() && fresh(Repr - old(Repr)) && old(Repr) <= Repr
      ensures model == HM.OpenSession(old(model), key, name, token)
      ensures peers == old(peers) && timers == old(timers)
      ensures key in sessions && sessions[key] == s
    {
      hide PeerMatches, TimerMatches;
      if key in sessions {
        s := sessions[key];
      } else {
        s := new Session(key, name, token);
        AddSession(s);
      }
    }

    method AddSession(s: Session)
      requires Matches() && s.id !in sessions
      requires SessionMatches(peers, timers, s, HM.NewSession(s.name, s.turnToken))
      modifies this`sessions, this`sessionsActive, this`Repr, this`model
      ensures Matches() && Repr == old(Repr) + {s} && sessions == old(sessions)[s.id := s]
      ensures model == HM.OpenSession(old(model), s.id, s.name, s.turnToken)
    {
      hide SessionMatches, PeerMatches, TimerMatches;
      SessionAdded(s);
      sessions, sessionsActive, Repr, model :=
        sessions[s.id := s], sessionsActive + 1, Repr + {s}, HM.OpenSession(model, s.id, s.name, s.turnToken);
    }

    lemma SessionAdded(s: Session)
      requires Matches() && s.id !in sessions
      requires SessionMatches(peers, timers, s, HM.NewSession(s.name, s.turnToken))
      ensures var st := HM.OpenSession(model, s.id, s.name, s.turnToken);
              && st.peers == model.peers && st.gauge == model.gauge + 1
              && sessions[s.id := s].Keys == st.sessions.Keys
              && forall k | k in sessions[s.id := s] ::
                   && sessions[s.id := s][k].id == k
                   && SessionMatches(peers, timers, sessions[s.id := s][k], st.sessions[k])
    {
      hide PeerMatches, TimerMatches, SessionMatches;
    }

    /** Makes the peer, which does not sit anywhere yet. */
    method Enlist(key: string, m: JoinMessage, role: Role, served: bool, ghost replaced: Option<PM.PeerId>)
      returns (p: Peer)
      requires Matches()
      modifies this`peers, this`timers, this`Repr, this`model
      ensures Matches() && fresh(Repr - old(Repr)) && old(Repr) <= Repr
      ensures model == HM.Enlist(old(model), PM.NewPeer(role, key, m.session, served, replaced))
      ensures peers == old(peers) + [p] && fresh(p) && fresh(p.conn) && p.pid == |old(peers)|
      ensures timers == old(timers) + [null]
    {
      var conn := new Conn(|peers|);
      p := new Peer(|peers|, cfg, role, key, m.session, m.imei, served, conn);
      Register(p, PM.NewPeer(role, key, m.session, served, replaced));
    }

    ghost method Register(p: Peer, m: PM.Peer)
      requires Matches() && PeerMatches(cfg, p, m, |peers|) && m.timer.NoTimer?
      modifies this`peers, this`timers, this`Repr, this`model
      ensures Matches() && Repr == old(Repr) + {p, p.conn}
      ensures model == HM.Enlist(old(model), m) && peers == old(peers) + [p] && timers == old(timers) + [null]
    {
      hide PeerMatches, SessionMatches;
      SessionsGrow(p);
      peers, timers, Repr := peers + [p], timers + [null], Repr + {p, p.conn};
      model := HM.Enlist(model, m);
      assert SessionsMatch(model);
    }

    lemma SessionsGrow(p: Peer)
      requires Matches()
      ensures forall k | k in sessions ::
                SessionMatches(peers + [p], timers + [null], sessions[k], model.sessions[k])
    {
    }

    /** Gives a peer its slot. */
    method TakeSlot(s: Session, p: Peer, imei: string, role: Role) returns (replaced: Peer?)
      requires Matches() && s.id in sessions && sessions[s.id] == s && Knows(p)
      modifies this`model, s
      ensures Matches() && model == HM.TakeSlot(old(model), s.id, imei, p.pid, role)
      ensures Ref(peers, replaced, HM.Slot(old(model).sessions[s.id], role))
    {
      hide HM.Next;
      replaced := Claim(s, p, imei, role);
      ghost var to := HM.TakeSlot(model, s.id, imei, p.pid, role);
      Adopt(to, s.id, to.sessions[s.id]);
    }

    method Claim(s: Session, p: Peer, imei: string, role: Role) returns (replaced: Peer?)
      requires Matches() && s.id in sessions && sessions[s.id] == s && Knows(p)
      modifies s
      ensures ModelsBut(model, s.id)
      ensures SessionMatches(peers, timers, s, HM.Claim(model.sessions[s.id], imei, role, p.pid))
      ensures Ref(peers, replaced, HM.Slot(model.sessions[s.id], role))
    {
      hide PeerMatches, TimerMatches;
      Apart(s);
      replaced := Occupy(s, model.sessions[s.id], p, imei, role);
    }

    method Occupy(s: Session, ghost was: HM.Session, p: Peer, imei: string, role: Role) returns (replaced: Peer?)
      requires SessionMatches(peers, timers, s, was) && Knows(p)
      modifies s
      ensures SessionMatches(peers, timers, s, HM.Claim(was, imei, role, p.pid))
      ensures replaced == old(s.Slot(role))
    {
      if imei != "" {
        s.imei := imei;
      }
      replaced := s.Slot(role);
      s.SetSlot(role, p);
      if replaced != null {
        s.readySent := false;
      }
    }

    /** `announceJoin`: the map is visited in no particular order. */
    method AnnounceJoin(joiner: Peer, session: string)
      requires Matches() && Knows(joiner)
      requires forall k | k in model.sessions :: HM.SlotsOk(model.peers, k, model.sessions[k])
      modifies this`model, peers, set i | 0 <= i < |peers| :: peers[i].conn
      ensures Matches() && model == HM.Announce(cfg, old(model), joiner.pid, session)
    {
      hide SessionMatches, PeersMatch, HM.Seated;
      ghost var was := model;
      var left := sessions.Keys;
      ghost var told: set<string> := {};
      HM.AnnounceToNone(cfg, was, joiner.pid, session);
      while left != {}
        invariant Matches() && told + left == sessions.Keys && told !! left
        invariant model == HM.AnnounceTo(cfg, was, joiner.pid, session, told)
        decreases left
      {
        left, told := AnnounceNext(was, told, left, joiner, session);
      }
      HM.AnnounceToAll(cfg, was, joiner.pid, session);
    }

    /** Tells one of the sessions that are left. */
    method AnnounceNext(ghost was: HM.State, ghost told: set<string>, left: set<string>, joiner: Peer, session: string)
      returns (rest: set<string>, ghost now: set<string>)
      requires Matches() && Knows(joiner) && told + left == sessions.Keys && told !! left && left != {}
      requires forall k | k in was.sessions :: HM.SlotsOk(was.peers, k, was.sessions[k])
      requires model == HM.AnnounceTo(cfg, was, joiner.pid, session, told)
      modifies this`model, peers, set i | 0 <= i < |peers| :: peers[i].conn
      ensures Matches() && now + rest == told + left && now !! rest && rest < left
      ensures model == HM.AnnounceTo(cfg, was, joiner.pid, session, now)
    {
      hide SessionsMatch, PeersMatch, HM.Seated;
      var id :| id in left;
      Filed(id);
      assert HM.SlotsOk(was.peers, id, was.sessions[id]);
      HM.AnnounceToMore(cfg, was, joiner.pid, session, told, id);
      AnnounceIn(sessions[id], joiner, session);
      rest, now := left - {id}, told + {id};
    }

    /** A session is filed under its own key. */
    lemma Filed(key: string)
      requires Matches() && key in sessions
      ensures sessions[key].id == key && key in model.sessions
    {
      hide PeersMatch, SessionMatches;
    }

    method AnnounceIn(s: Session, joiner: Peer, session: string)
      requires Matches() && Knows(joiner) && s.id in sessions && sessions[s.id] == s
      requires HM.SlotsOk(model.peers, s.id, model.sessions[s.id])
      modifies this`model, peers, set i | 0 <= i < |peers| :: peers[i].conn
      ensures Matches()
      ensures model == HM.Tell(cfg, HM.Tell(cfg, old(model), joiner.pid, session, old(model).sessions[s.id].device),
                               joiner.pid, session, old(model).sessions[s.id].phone)
    {
      hide Ref, PeersMatch, PM.Send;
      ghost var m := model.sessions[s.id];
      Tell(s.device, joiner, session, m.device);
      Tell(s.phone, joiner, session, m.phone);
    }

    method Tell(other: Peer?, joiner: Peer, session: string, ghost slot: Option<PM.PeerId>)
      requires Matches() && Knows(joiner) && Ref(peers, other, slot)
      modifies this`model, peers, set i | 0 <= i < |peers| :: peers[i].conn
      ensures Matches() && model == HM.Tell(cfg, old(model), joiner.pid, session, slot)
    {
      if other != null && other != joiner {
        SendTo(other, RemoteJoined(session), PM.Announced(joiner.pid));
      }
    }

    /** Pairs the joiner, or arms the timer of a lone device. */
    method Match(s: Session, p: Peer)
      requires Matches() && Knows(p) && s.id in sessions && sessions[s.id] == s && p.sessionID == s.id
      requires s.id in model.sessions && HM.SlotsOk(model.peers, s.id, model.sessions[s.id])
      requires p.pid < |model.peers| && model.peers[p.pid].timer.NoTimer?
      modifies this, Repr
      ensures Matches() && fresh(Repr - old(Repr)) && old(Repr) <= Repr
      ensures peers == old(peers) && model == HM.Match(cfg, old(model), p.pid)
    {
      SameSession(s);
      SameNames(p);
      hide SessionsMatch, PeersMatch, HM.PairUp;
      if s.device != null && s.phone != null {
        Pair(s);
      } else if p.role == Device && cfg.noReceiverTimeout > 0 {
        SessionOwned(s);
        ArmTimer(s, p);
      }
    }

    method Pair(s: Session)
      requires Matches() && s.id in sessions && sessions[s.id] == s && s.id in model.sessions
      requires HM.SlotsOk(model.peers, s.id, model.sessions[s.id]) && HM.IsPaired(model.sessions[s.id])
      modifies this`model, Repr
      ensures Matches() && model == HM.PairUp(cfg, old(model), s.id)
    {
      hide PeersMatch, SessionsMatch, HM.SendReady;
      HM.CalmView(model, s.id);
      SessionOwned(s);
      StopLonely(s);
      SameSession(s);
      if !s.readySent {
        SendReady(s);
      }
    }

    /** What the fields of a session say is what the model says. */
    lemma SameSession(s: Session)
      requires Matches() && s.id in sessions && sessions[s.id] == s
      ensures s.id in model.sessions
      ensures var m := model.sessions[s.id];
              s.readySent == m.readySent && Ref(peers, s.device, m.device) && Ref(peers, s.phone, m.phone)
    {
      hide PeerMatches, TimerMatches;
    }

    method SendReady(s: Session)
      requires Matches() && s.id in sessions && sessions[s.id] == s && s.device != null && s.phone != null
      requires HM.SlotsOk(model.peers, s.id, model.sessions[s.id])
      modifies this`model, s`readySent, s.device, s.device.conn, s.phone, s.phone.conn
      ensures Matches() && model == HM.SendReady(cfg, old(model), s.id)
    {
      MarkReady(s);
      SendTo(s.device, ReadyFrame(cfg, s.turnToken, false), PM.Paired(s.device.pid, s.phone.pid));
      SendTo(s.phone, ReadyFrame(cfg, s.turnToken, true), PM.Paired(s.device.pid, s.phone.pid));
    }

    method MarkReady(s: Session)
      requires Matches() && s.id in sessions && sessions[s.id] == s && s.device != null && s.phone != null
      modifies this`model, s`readySent
      ensures Matches()
      ensures var m := old(model).sessions[s.id];
              model == HM.SetSession(old(model), s.id, m.(readySent := true))
                .(pairings := old(model).pairings + [HM.Pairing(m.device.value, m.phone.value, m.token)])
    {
      hide HM.Next;
      Apart(s);
      ghost var m := model.sessions[s.id];
      s.readySent := true;
      ghost var to := HM.SetSession(model, s.id, m.(readySent := true))
        .(pairings := model.pairings + [HM.Pairing(m.device.value, m.phone.value, m.token)]);
      Adopt(to, s.id, m.(readySent := true));
    }

    method ArmTimer(s: Session, p: Peer)
      requires Matches() && Knows(p) && s.id in sessions && sessions[s.id] == s
      requires model.peers[p.pid].timer.NoTimer?
      modifies this`model, this`Repr, this`timers, s`lonely
      ensures Matches() && fresh(Repr - old(Repr)) && old(Repr) <= Repr
      ensures var m := old(model).sessions[s.id];
              model == HM.SetPeer(HM.SetSession(old(model), s.id, m.(lonely := Some(p.pid))), p.pid,
                                  old(model).peers[p.pid].(timer := PM.Armed))
    {
      hide PeerMatches, TimerMatches, SessionMatches;
      var t := MakeTimer(p);
      HoldTimer(s, p, t);
    }

    method HoldTimer(s: Session, p: Peer, t: LonelyTimer)
      requires Matches() && Knows(p) && s.id in sessions && sessions[s.id] == s && timers[p.pid] == t
      modifies this`model, s`lonely
      ensures Matches()
      ensures model == HM.SetSession(old(model), s.id, old(model).sessions[s.id].(lonely := Some(p.pid)))
    {
      hide PeerMatches, TimerMatches, SessionMatches;
      PutTimer(s, p, t);
      ghost var m := model.sessions[s.id].(lonely := Some(p.pid));
      Adopt(HM.SetSession(model, s.id, m), s.id, m);
    }

    method PutTimer(s: Session, p: Peer, t: LonelyTimer)
      requires Matches() && Knows(p) && s.id in sessions && sessions[s.id] == s && timers[p.pid] == t
      modifies s`lonely
      ensures ModelsBut(model, s.id)
      ensures SessionMatches(peers, timers, s, model.sessions[s.id].(lonely := Some(p.pid)))
    {
      hide PeerMatches, TimerMatches;
      Apart(s);
      s.lonely := t;
    }

    /** A timer for `p`, which had none. */
    method MakeTimer(p: Peer) returns (t: LonelyTimer)
      requires Matches() && Knows(p) && model.peers[p.pid].timer.NoTimer?
      modifies this`model, this`Repr, this`timers
      ensures Matches() && fresh(Repr - old(Repr)) && old(Repr) <= Repr
      ensures fresh(t) && timers == old(timers)[p.pid := t]
      ensures model == HM.SetPeer(old(model), p.pid, old(model).peers[p.pid].(timer := PM.Armed))
    {
      t := new LonelyTimer(p);
      GiveTimer(p.pid, t);
    }

    ghost method GiveTimer(d: PM.PeerId, t: LonelyTimer)
      requires Matches() && d < |peers| && timers[d] == null && t.device == peers[d] && t.pending
      modifies this`model, this`Repr, this`timers
      ensures Matches() && Repr == old(Repr) + {t} && timers == old(timers)[d := t]
      ensures model == HM.SetPeer(old(model), d, old(model).peers[d].(timer := PM.Armed))
    {
      hide PeerMatches, TimerMatches, SessionMatches;
      TimerAdded(d, t);
      TimerGiven(d, t);
      timers, Repr, model := timers[d := t], Repr + {t}, HM.SetPeer(model, d, model.peers[d].(timer := PM.Armed));
    }

    lemma TimerAdded(i: nat, t: LonelyTimer)
      requires Matches() && i < |timers| && timers[i] == null
      ensures forall k | k in sessions ::
                SessionMatches(peers, timers[i := t], sessions[k], model.sessions[k])
    {
    }

    lemma TimerGiven(i: nat, t: LonelyTimer)
      requires Matches() && i < |timers| && t.device == peers[i] && t.pending
      ensures i < |model.peers| && |peers| == |timers| == |model.peers|
      ensures var to := HM.SetPeer(model, i, model.peers[i].(timer := PM.Armed));
              forall j | 0 <= j < |peers| ::
                && PeerMatches(cfg, peers[j], to.peers[j], j)
                && TimerMatches(timers[i := t][j], peers[j], to.peers[j].timer)
    {
      hide SessionMatches;
    }

    // ----- the operations -----

    /** The state machine moves, the objects do not. */
    ghost method Settle(p: Peer, task: PM.Task)
      requires Matches() && Knows(p)
      modifies this`model
      ensures Matches() && model == HM.SetPeer(old(model), p.pid, old(model).peers[p.pid].(task := task))
    {
      model := HM.SetPeer(model, p.pid, model.peers[p.pid].(task := task));
    }

    /** Makes the joiner and seats it in the session found for it. */
    method SitDown(s: Session, m: JoinMessage, role: Role, served: bool) returns (p: Peer, replaced: Peer?)
      requires Matches() && s.id in sessions && sessions[s.id] == s
      modifies this, s
      ensures Matches() && fresh(Repr - old(Repr)) && old(Repr) <= Repr && sessions == old(sessions)
      ensures var slot := HM.Slot(old(model).sessions[s.id], role);
              && model == HM.TakeSlot(HM.Enlist(old(model), PM.NewPeer(role, s.id, m.session, served, slot)),
                                      s.id, m.imei, |old(peers)|, role)
              && Ref(peers, replaced, slot)
      ensures Knows(p) && p.pid == |old(peers)| && fresh(p) && fresh(p.conn)
    {
      hide PeerMatches, TimerMatches, SessionMatches;
      p := Enlist(s.id, m, role, served, HM.Slot(model.sessions[s.id], role));
      replaced := TakeSlot(s, p, m.imei, role);
    }

    method Seat(m: JoinMessage, role: Role, token: string, served: bool)
      returns (p: Peer, s: Session, replaced: Peer?)
      requires Matches()
      modifies this, Repr
      ensures Matches() && fresh(Repr - old(Repr)) && old(Repr) <= Repr
      ensures model == HM.Seat(cfg, old(model), m, role, token, served)
      ensures Knows(p) && p.pid == |old(peers)| && fresh(p) && fresh(p.conn)
      ensures s.id == cfg.lower(m.session) && s.id in sessions && sessions[s.id] == s
      ensures Ref(peers, replaced, HM.Slot(HM.OpenSession(old(model), s.id, m.session, token).sessions[s.id], role))
    {
      hide PeerMatches, TimerMatches, SessionMatches;
      s := FindSession(cfg.lower(m.session), m.session, token);
      p, replaced := SitDown(s, m, role, served);
    }

    method Greet(m: JoinMessage, role: Role, token: string, served: bool)
      returns (p: Peer, s: Session, replaced: Peer?)
      requires Matches()
      modifies this, Repr
      ensures Matches() && fresh(Repr - old(Repr)) && old(Repr) <= Repr
      ensures var seated := HM.Seat(cfg, old(model), m, role, token, served);
              model == HM.OfferTo(cfg, seated, |old(peers)|, Joined, PM.Welcome)
      ensures Knows(p) && p.pid == |old(peers)|
      ensures s.id == cfg.lower(m.session) && s.id in sessions && sessions[s.id] == s
      ensures Ref(peers, replaced, HM.Slot(HM.OpenSession(old(model), s.id, m.session, token).sessions[s.id], role))
    {
      hide PeerMatches, TimerMatches, SessionMatches;
      p, s, replaced := Seat(m, role, token, served);
      SendTo(p, Joined, PM.Welcome);
    }

    method Admit(m: JoinMessage, token: string, served: bool) returns (p: Peer, replaced: Peer?)
      requires Valid() && HM.Enabled(model, HM.Join(m, token, served))
      modifies this, Repr
      ensures Matches() && fresh(Repr - old(Repr)) && old(Repr) <= Repr
      ensures HM.WellFormed(old(model)) && model == HM.Admit(cfg, old(model), m, token, served)
      ensures Knows(p) && p.pid == |old(peers)|
      ensures var role, key := ParseRole(m.role).value, cfg.lower(m.session);
              Ref(peers, replaced, HM.Slot(HM.OpenSession(old(model), key, m.session, token).sessions[key], role))
    {
      Runs.ReachableForm(cfg, model);
      Runs.GreetedStage(cfg, model, m, token, served);
      hide Runs.Reachable, SessionsMatch, HM.Match, HM.Seat, HM.OfferTo, HM.SlotsOk;
      p, replaced := Receive(m, ParseRole(m.role).value, token, served);
    }

    /** Seats the joiner, greets it and matches it. */
    method Receive(m: JoinMessage, role: Role, token: string, served: bool) returns (p: Peer, replaced: Peer?)
      requires Matches()
      requires var key := cfg.lower(m.session);
               var seated := HM.Seat(cfg, model, m, role, token, served);
               var greeted := HM.OfferTo(cfg, seated, |model.peers|, Joined, PM.Welcome);
               && |greeted.peers| == |model.peers| + 1
               && key in greeted.sessions && HM.SlotsOk(greeted.peers, key, greeted.sessions[key])
               && greeted.peers[|model.peers|].timer.NoTimer? && greeted.peers[|model.peers|].key == key
      modifies this, Repr
      ensures Matches() && fresh(Repr - old(Repr)) && old(Repr) <= Repr
      ensures |old(model).peers| == |old(peers)| == p.pid && Knows(p)
      ensures model == HM.Match(cfg, HM.OfferTo(cfg, HM.Seat(cfg, old(model), m, role, token, served), |old(peers)|,
                                                Joined, PM.Welcome), |old(peers)|)
      ensures var key := cfg.lower(m.session);
              Ref(peers, replaced, HM.Slot(HM.OpenSession(old(model), key, m.session, token).sessions[key], role))
    {
      hide PeerMatches, TimerMatches, SessionMatches, HM.Match, HM.SlotsOk, HM.Seat;
      var s: Session;
      p, s, replaced := Greet(m, role, token, served);
      SameNames(p);
      Match(s, p);
    }

    /** The region of `join` under the lock. */
    method JoinLocked(m: JoinMessage, token: string, served: bool) returns (p: Peer, replaced: Peer?)
      requires Valid() && HM.Enabled(model, HM.Join(m, token, served))
      modifies this, Repr
      ensures Valid() && fresh(Repr - old(Repr)) && old(Repr) <= Repr
      ensures HM.WellFormed(old(model)) && model == HM.Next(cfg, old(model), HM.Join(m, token, served))
      ensures Knows(p) && p.pid == |old(peers)|
      ensures model.peers[p.pid].task.Joining? && Ref(peers, replaced, model.peers[p.pid].task.replaced)
      ensures model.peers[p.pid].box.writer.Running?
    {
      hide HM.Enabled, HM.WellFormed, Runs.Reachable, HM.Admit, HM.Announce;
      hide HM.LeaveLock, HM.ExpireLock, HM.ForwardLock, HM.RelaySend, HM.ClearLock;
      Runs.ReachableNext(cfg, model, HM.Join(m, token, served));
      Runs.AdmitStage(cfg, model, m, token, served);
      Runs.JoinTask(cfg, model, m, token, served);
      p, replaced := Admit(m, token, served);
      AnnounceJoin(p, m.session);
    }

    /** `join`: checks the message, takes the lock, and closes the replaced peer after it. */
    method Join(m: JoinMessage, token: string, served: bool) returns (r: Result<Peer>)
      requires Valid() && model.phase.Open?
      modifies this, Repr
      ensures Valid() && fresh(Repr - old(Repr)) && old(Repr) <= Repr
      ensures m.session == "" ==> r == Err(EmptySession) && model == old(model)
      ensures m.session != "" && m.role != "device" && m.role != "phone" ==>
                r == Err(UnknownRole(m.role)) && model == old(model)
      ensures r.Ok? ==> Outcomes.Welcomed(cfg, old(model), model, m, token, served)
                        && Outcomes.Displaces(cfg, old(model), model, m)
      ensures r.Ok? <==> m.session != "" && (m.role == "device" || m.role == "phone")
      ensures CheckJoin(m).None? ==>
                && r.Ok? && Knows(r.value) && r.value.pid == |old(peers)|
                && HM.WellFormed(old(model))
                && var joined := HM.Next(cfg, old(model), HM.Join(m, token, served));
                && HM.WellFormed(joined) && HM.Enabled(joined, HM.FinishJoin(r.value.pid))
                && model == HM.Next(cfg, joined, HM.FinishJoin(r.value.pid))
                && r.value.pid < |model.peers| && model.peers[r.value.pid].task.Idle?
                && model.peers[r.value.pid].box.writer.Running?
    {
      hide HM.Next;
      if m.session == "" {
        return Err(EmptySession);
      }
      if m.role != "device" && m.role != "phone" {
        return Err(UnknownRole(m.role));
      }
      var p := JoinBoth(m, token, served);
      Outcomes.JoinComesTo(cfg, old(model), m, token, served);
      r := Ok(p);
    }

    method JoinBoth(m: JoinMessage, token: string, served: bool) returns (p: Peer)
      requires Valid() && HM.Enabled(model, HM.Join(m, token, served))
      modifies this, Repr
      ensures Valid() && fresh(Repr - old(Repr)) && old(Repr) <= Repr && Knows(p) && p.pid == |old(peers)|
      ensures HM.WellFormed(old(model))
      ensures var joined := HM.Next(cfg, old(model), HM.Join(m, token, served));
              && HM.WellFormed(joined) && HM.Enabled(joined, HM.FinishJoin(p.pid))
              && model == HM.Next(cfg, joined, HM.FinishJoin(p.pid))
      ensures p.pid < |model.peers| && model.peers[p.pid].task.Idle? && model.peers[p.pid].box.writer.Running?
    {
      hide HM.Next, HM.WellFormed, Runs.Reachable;
      var replaced: Peer?;
      p, replaced := JoinLocked(m, token, served);
      FinishJoin(p, replaced);
    }

    method FinishJoin(p: Peer, replaced: Peer?)
      requires Valid() && Knows(p) && model.peers[p.pid].task.Joining?
      requires Ref(peers, replaced, model.peers[p.pid].task.replaced)
      modifies this`model, peers, set i | 0 <= i < |peers| :: peers[i].conn
      ensures Valid() && HM.WellFormed(old(model)) && model == HM.Next(cfg, old(model), HM.FinishJoin(p.pid))
      ensures p.pid < |model.peers| && model.peers[p.pid].task.Idle?
      ensures model.peers[p.pid].box.writer == old(model).peers[p.pid].box.writer
    {
      Runs.FinishJoinTask(cfg, model, p.pid);
      Runs.ReachableNext(cfg, model, HM.FinishJoin(p.pid));
      if replaced != null {
        ClosePeer(replaced, HM.ReplacedReason(p.role));
      }
      Settle(p, PM.Idle);
    }

    // ----- leave -----

    /** The slot of its role, in the session it names, holds this very peer. */
    predicate SitsHere(p: Peer)
      reads this, sessions.Values
    {
      p.sessionID in sessions && sessions[p.sessionID].Slot(p.role) == p
    }

    /** The objects of a session belong to the hub. */
    lemma SessionOwned(s: Session)
      requires Matches() && s.id in sessions && sessions[s.id] == s
      ensures s in Repr && (s.lonely != null ==> s.lonely in Repr)
    {
      hide PeerMatches, TimerMatches;
    }

    lemma SitsHereIsSeated(p: Peer)
      requires Matches() && Knows(p)
      ensures SitsHere(p) <==> HM.Seated(model, p.pid)
      ensures SitsHere(p) ==>
                Ref(peers, sessions[p.sessionID].Other(p.role), HM.Counterpart(model, p.pid))
      ensures SitsHere(p) ==> sessions[p.sessionID].id == p.sessionID
    {
    }

    method SetSlot(s: Session, role: Role, p: Peer?, ghost id: Option<PM.PeerId>)
      requires Matches() && s.id in sessions && sessions[s.id] == s && Ref(peers, p, id)
      modifies this`model, s`device, s`phone
      ensures Matches() && model == HM.SetSession(old(model), s.id, HM.SetSlot(old(model).sessions[s.id], role, id))
    {
      hide PeerMatches, TimerMatches;
      Apart(s);
      s.SetSlot(role, p);
      ghost var m := HM.SetSlot(model.sessions[s.id], role, id);
      Adopt(HM.SetSession(model, s.id, m), s.id, m);
    }

    method Unready(s: Session)
      requires Matches() && s.id in sessions && sessions[s.id] == s
      modifies this`model, s`readySent
      ensures Matches()
      ensures model == HM.SetSession(old(model), s.id, old(model).sessions[s.id].(readySent := false))
    {
      hide HM.Next;
      Apart(s);
      s.readySent := false;
      ghost var m := model.sessions[s.id].(readySent := false);
      Adopt(HM.SetSession(model, s.id, m), s.id, m);
    }

    /** Removes a session nobody sits in. */
    method DropIfEmpty(s: Session)
      requires Matches() && s.id in sessions && sessions[s.id] == s
      modifies this`model, this`sessions, this`sessionsActive
      ensures Matches()
      ensures model == HM.DropIfEmpty(old(model), s.id)
    {
      hide PeerMatches, TimerMatches, SessionMatches;
      SameSession(s);
      SessionDropped(s.id);
      if s.IsEmpty() {
        sessions, sessionsActive, model := sessions - {s.id}, sessionsActive - 1, HM.DropSession(model, s.id);
      }
    }

    lemma SessionDropped(key: string)
      requires Matches() && key in sessions
      ensures var st := HM.DropSession(model, key);
              && st.peers == model.peers && st.gauge == model.gauge - 1
              && (sessions - {key}).Keys == st.sessions.Keys
              && forall k | k in sessions - {key} ::
                   && (sessions - {key})[k].id == k
                   && SessionMatches(peers, timers, (sessions - {key})[k], st.sessions[k])
    {
      hide PeerMatches, TimerMatches, SessionMatches;
    }

    /** Empties the slot and stops the timer. */
    method Vacate(s: Session, role: Role)
      requires Matches() && s.id in sessions && sessions[s.id] == s
      requires HM.SlotsOk(model.peers, s.id, model.sessions[s.id])
      modifies this`model, s, s.lonely
      ensures Matches()
      ensures model == HM.Vacate(old(model), s.id, role) && s.id in model.sessions
    {
      hide HM.Next, SessionsMatch, PeersMatch;
      SetSlot(s, role, null, None);
      HM.CalmView(model, s.id);
      StopLonely(s);
    }

    /** Forgets that ready was sent, and the session if nobody is left in it. */
    method Abandon(s: Session)
      requires Matches() && s.id in sessions && sessions[s.id] == s
      modifies this`model, this`sessions, this`sessionsActive, s`readySent
      ensures Matches()
      ensures model == HM.Abandon(old(model), s.id)
    {
      Unready(s);
      DropIfEmpty(s);
    }

    /** The region of `leave` under the lock. */
    method LeaveLocked(p: Peer) returns (other: Peer?)
      requires Valid() && Knows(p) && HM.Enabled(model, HM.Leave(p.pid))
      modifies this, Repr
      ensures Valid() && Repr == old(Repr) && peers == old(peers)
      ensures HM.WellFormed(old(model)) && model == HM.Next(cfg, old(model), HM.Leave(p.pid))
      ensures p.pid < |model.peers| && !HM.Seated(model, p.pid)
      ensures model.peers[p.pid].task == if other != null then PM.Departing else PM.Gone
      ensures other != null ==>
                && model.peers[p.pid].acts != [] && HM.Last(model.peers[p.pid]).frame == Bye
                && Ref(peers, other, HM.Last(model.peers[p.pid]).to)
    {
      Runs.ReachableNext(cfg, model, HM.Leave(p.pid));
      Runs.LeaveUnseats(cfg, model, p.pid);
      HL.LeaveTask(model, p.pid);
      other := LeaveSlot(p);
    }

    method LeaveSlot(p: Peer) returns (other: Peer?)
      requires Matches() && HM.WellFormed(model) && Knows(p)
      modifies this, Repr
      ensures Matches() && Repr == old(Repr) && peers == old(peers) && model == HM.LeaveLock(old(model), p.pid)
      ensures Ref(peers, other, if HM.Seated(old(model), p.pid) then HM.Counterpart(old(model), p.pid) else None)
    {
      hide PeersMatch, SessionsMatch, HM.Counterpart, HM.Vacate, HM.Abandon, HM.NoteLeft;
      SitsHereIsSeated(p);
      if SitsHere(p) {
        SessionOwned(sessions[p.sessionID]);
        other := Depart(sessions[p.sessionID], p, HM.Counterpart(model, p.pid));
      } else {
        Settle(p, PM.Gone);
        other := null;
      }
    }

    method Depart(s: Session, p: Peer, ghost id: Option<PM.PeerId>) returns (other: Peer?)
      requires Matches() && HM.WellFormed(model) && Knows(p)
      requires p.sessionID in sessions && s == sessions[p.sessionID] && s.id == p.sessionID
      requires HM.Seated(model, p.pid) && id == HM.Counterpart(model, p.pid)
      modifies this`model, this`sessions, this`sessionsActive, s, s.lonely
      ensures Matches() && model == HM.LeaveLock(old(model), p.pid) && other == old(s.Other(p.role))
    {
      SameNames(p);
      hide SessionsMatch, PeersMatch;
      other := s.Other(p.role);
      assert HM.SlotsOk(model.peers, s.id, model.sessions[s.id]);
      Empty(s, p.role);
      NoteLeft(p, id);
    }

    lemma SameNames(p: Peer)
      requires Matches() && Knows(p)
      ensures p.pid < |timers| == |model.peers|
      ensures p.role == model.peers[p.pid].role && p.sessionID == model.peers[p.pid].key
    {
    }

    /** Empties the slot, and drops the session if nobody is left. */
    method Empty(s: Session, role: Role)
      requires Matches() && s.id in sessions && sessions[s.id] == s && s.id in model.sessions
      requires HM.SlotsOk(model.peers, s.id, model.sessions[s.id])
      modifies this`model, this`sessions, this`sessionsActive, s, s.lonely
      ensures Matches() && s.id in HM.Vacate(old(model), s.id, role).sessions
      ensures model == HM.Abandon(HM.Vacate(old(model), s.id, role), s.id)
    {
      hide SessionsMatch, PeersMatch;
      Vacate(s, role);
      Abandon(s);
    }

    ghost method NoteLeft(p: Peer, other: Option<PM.PeerId>)
      requires Matches() && Knows(p)
      modifies this`model
      ensures Matches() && model == HM.NoteLeft(old(model), p.pid, other)
    {
      model := HM.NoteLeft(model, p.pid, other);
    }

    /** The send that follows the unlock of `forward` and `leave`. */
    method Relay(p: Peer, other: Peer, frame: Frame)
      requires Valid() && Knows(p) && HM.Enabled(model, HM.Relay(p.pid))
      requires model.peers[p.pid].acts != []
      requires Ref(peers, other, HM.Last(model.peers[p.pid]).to) && frame == HM.Last(model.peers[p.pid]).frame
      modifies this`model, other, other.conn
      ensures Valid() && HM.WellFormed(old(model)) && model == HM.Next(cfg, old(model), HM.Relay(p.pid))
      ensures p.pid < |model.peers|
      ensures model.peers[p.pid].task == if old(model).peers[p.pid].task.Relaying? then PM.Idle else PM.Gone
      ensures model.peers[p.pid].acts == old(model).peers[p.pid].acts
      ensures model.peers[p.pid].box.writer == old(model).peers[p.pid].box.writer
      ensures HM.Seated(model, p.pid) ==> HM.Seated(old(model), p.pid)
    {
      Runs.RelayTask(cfg, model, p.pid);
      Runs.ReachableNext(cfg, model, HM.Relay(p.pid));
      SendPending(p, other, frame);
    }

    method SendPending(p: Peer, other: Peer, frame: Frame)
      requires Matches() && Knows(p) && HM.WellFormed(model) && HM.Enabled(model, HM.Relay(p.pid))
      requires model.peers[p.pid].acts != []
      requires Ref(peers, other, HM.Last(model.peers[p.pid]).to) && frame == HM.Last(model.peers[p.pid]).frame
      modifies this`model, other, other.conn
      ensures Matches() && model == HM.RelaySend(cfg, old(model), p.pid)
    {
      hide HM.Enabled, HM.WellFormed;
      SameNames(p);
      hide SessionsMatch, PeersMatch, PM.Send;
      ghost var me := model.peers[p.pid];
      SendTo(other, frame, PM.Relayed(p.pid, |me.acts| - 1));
      Settle(p, if me.task.Relaying? then PM.Idle else PM.Gone);
    }

    /** The state is `locked`, once the send that `p` still owes in it has been made. */
    ghost predicate Followed(locked: HM.State, p: PM.PeerId)
      reads `model
    {
      Runs.SentOff(cfg, locked, p, model)
    }

    /** `handleConn` leaves once its loops have ended; a direct caller may leave at any time, and again. */
    ghost predicate MayLeave(me: PM.Peer)
    {
      (me.task.Ended? && (me.served ==> me.box.writer.Closed? || me.box.writer.Dead?)) || me.task.Gone?
    }

    lemma LeaveEnabled(p: Peer)
      requires Matches() && Knows(p) && MayLeave(model.peers[p.pid])
      ensures HM.Enabled(model, HM.Leave(p.pid))
    {
      hide PeerMatches, TimerMatches, SessionMatches;
    }

    /** `leave`: empties the slot, then tells the counterpart. */
    method Leave(p: Peer)
      requires Valid() && Knows(p) && MayLeave(model.peers[p.pid])
      modifies this, Repr
      ensures Valid() && Repr == old(Repr) && peers == old(peers)
      ensures HM.WellFormed(old(model)) && Followed(HM.Next(cfg, old(model), HM.Leave(p.pid)), p.pid)
      ensures Outcomes.Reaches(cfg, old(model), model, p.pid, Bye)
      ensures p.pid < |model.peers| && model.peers[p.pid].task.Gone? && !HM.Seated(model, p.pid)
    {
      hide HM.Next, SessionsMatch, PeersMatch, HM.Enabled, HM.WellFormed, Runs.Reachable;
      LeaveEnabled(p);
      var other := LeaveLocked(p);
      Runs.ReachableForm(cfg, model);
      if other != null {
        Relay(p, other, Bye);
      }
      Outcomes.LeaveReaches(cfg, old(model), p.pid, model);
    }

    // ----- forward -----

    /** The region of `forward` under the lock: only a lookup. */
    method ForwardLocked(p: Peer, raw: seq<byte>) returns (other: Peer?)
      requires Valid() && Knows(p) && HM.Enabled(model, HM.Forward(p.pid, raw))
      modifies this`model
      ensures Valid() && HM.WellFormed(old(model)) && model == HM.Next(cfg, old(model), HM.Forward(p.pid, raw))
      ensures p.pid < |model.peers| && model.peers[p.pid].acts != []
      ensures HM.Last(model.peers[p.pid]).frame == Raw(raw) && Ref(peers, other, HM.Last(model.peers[p.pid]).to)
      ensures model.peers[p.pid].task == if other != null then PM.Relaying else PM.Idle
      ensures model.peers[p.pid].acts == old(model).peers[p.pid].acts + [HM.Last(model.peers[p.pid])]
      ensures model.peers[p.pid].box.writer == old(model).peers[p.pid].box.writer
    {
      hide SessionsMatch, PeersMatch;
      Runs.ReachableNext(cfg, model, HM.Forward(p.pid, raw));
      Runs.ForwardTask(cfg, model, p.pid, raw);
      hide Runs.Reachable, HM.ForwardLock, HM.Seated;
      other := LookUp(p);
      NoteForward(p, raw);
    }

    ghost method NoteForward(p: Peer, raw: seq<byte>)
      requires Matches() && Knows(p) && HM.WellFormed(model)
      modifies this`model
      ensures Matches() && p.pid < |old(model).peers| && model == HM.ForwardLock(old(model), p.pid, raw)
    {
      hide SessionMatches, TimerMatches, HM.WellFormed;
      model := HM.ForwardLock(model, p.pid, raw);
    }

    method LookUp(p: Peer) returns (other: Peer?)
      requires Matches() && Knows(p)
      ensures Ref(peers, other, if HM.Seated(model, p.pid) then HM.Counterpart(model, p.pid) else None)
    {
      SitsHereIsSeated(p);
      other := null;
      if SitsHere(p) {
        other := sessions[p.sessionID].Other(p.role);
      }
    }

    /** `forward`: passes a frame to the other side of the session, unchanged. */
    method Forward(p: Peer, raw: seq<byte>)
      requires Valid() && Knows(p) && model.peers[p.pid].task.Idle?
      modifies this`model, peers, set i | 0 <= i < |peers| :: peers[i].conn
      ensures Valid() && HM.WellFormed(old(model)) && Followed(HM.Next(cfg, old(model), HM.Forward(p.pid, raw)), p.pid)
      ensures p.pid < |model.peers| && model.peers[p.pid].task.Idle?
      ensures ActsGrow(old(model).peers[p.pid].acts, model.peers[p.pid].acts, [raw])
      ensures model.peers[p.pid].box.writer == old(model).peers[p.pid].box.writer
      ensures Outcomes.Reaches(cfg, old(model), model, p.pid, Raw(raw))
    {
      hide HM.Next, Runs.Reachable;
      ghost var acts := model.peers[p.pid].acts;
      var other := ForwardLocked(p, raw);
      Runs.ReachableForm(cfg, model);
      ActsGrowOne(acts, HM.Last(model.peers[p.pid]), raw);
      if other != null {
        Relay(p, other, Raw(raw));
      }
      Outcomes.ForwardReaches(cfg, old(model), p.pid, raw, model);
    }

    // ----- the lonely timer -----

    /** The runtime starts the goroutine of a pending timer. */
    method Fire(p: Peer, t: LonelyTimer)
      requires Valid() && Knows(p) && timers[p.pid] == t && t.pending
      modifies this`model, t
      ensures Valid() && HM.WellFormed(old(model)) && model == HM.Next(cfg, old(model), HM.Fire(p.pid))
    {
      assert TimerMatches(timers[p.pid], peers[p.pid], model.peers[p.pid].timer);
      Runs.ReachableNext(cfg, model, HM.Fire(p.pid));
      hide SessionsMatch, PeerMatches, TimerMatches, Runs.Reachable, HM.WellFormed;
      Elapse(p.pid, t);
    }

    /** The region of `expireLonely` under the lock. */
    method ExpireLocked(device: Peer) returns (evicted: bool)
      requires Valid() && Knows(device) && HM.Enabled(model, HM.Expire(device.pid))
      modifies this, Repr
      ensures Valid() && Repr == old(Repr) && peers == old(peers)
      ensures HM.WellFormed(old(model)) && model == HM.Next(cfg, old(model), HM.Expire(device.pid))
      ensures evicted == HM.Expires(old(model), device.pid)
    {
      Runs.ReachableNext(cfg, model, HM.Expire(device.pid));
      evicted := ExpireSlot(device);
    }

    /** The session it names holds this very device, and no phone. */
    predicate WaitsAlone(device: Peer)
      reads this, sessions.Values
    {
      && device.sessionID in sessions
      && sessions[device.sessionID].device == device && sessions[device.sessionID].phone == null
    }

    lemma WaitsAloneIsExpires(device: Peer)
      requires Matches() && Knows(device)
      ensures WaitsAlone(device) <==> HM.Expires(model, device.pid)
    {
    }

    method ExpireSlot(device: Peer) returns (evicted: bool)
      requires Matches() && HM.WellFormed(model) && Knows(device) && model.peers[device.pid].timer.Fired?
      modifies this, Repr
      ensures Matches() && Repr == old(Repr) && peers == old(peers) && model == HM.ExpireLock(old(model), device.pid)
      ensures evicted == HM.Expires(old(model), device.pid)
    {
      WaitsAloneIsExpires(device);
      evicted := WaitsAlone(device);
      if evicted {
        Evict(sessions[device.sessionID], device);
      } else {
        SetTimer(device, PM.Spent);
      }
    }

    ghost method SetTimer(p: Peer, t: PM.Timer)
      requires Matches() && Knows(p) && timers[p.pid] != null && !timers[p.pid].pending
      requires !t.Armed? && !t.NoTimer?
      modifies this`model
      ensures Matches() && model == HM.SetPeer(old(model), p.pid, old(model).peers[p.pid].(timer := t))
    {
      hide PeerMatches, SessionMatches;
      AdoptTimer(p.pid, t);
    }

    method Evict(s: Session, device: Peer)
      requires Matches() && Knows(device) && s.id in sessions && sessions[s.id] == s && s.id == device.sessionID
      requires HM.Expires(model, device.pid) && timers[device.pid] != null && !timers[device.pid].pending
      modifies this`model, this`sessions, this`sessionsActive, s`lonely, s`device
      ensures Matches() && model == HM.ExpireLock(old(model), device.pid)
    {
      hide PeersMatch, SessionsMatch;
      SameNames(device);
      SameSession(s);
      ForgetDevice(s);
      DropIfEmpty(s);
      NoteExpired(device);
    }

    method ForgetDevice(s: Session)
      requires Matches() && s.id in sessions && sessions[s.id] == s
      modifies this`model, s`lonely, s`device
      ensures Matches() && model == HM.ForgetDevice(old(model), s.id)
    {
      hide PeerMatches, TimerMatches, SessionMatches;
      ClearDevice(s);
      ghost var m := model.sessions[s.id].(lonely := None, device := None);
      Adopt(HM.SetSession(model, s.id, m), s.id, m);
    }

    method ClearDevice(s: Session)
      requires Matches() && s.id in sessions && sessions[s.id] == s
      modifies s`lonely, s`device
      ensures ModelsBut(model, s.id)
      ensures SessionMatches(peers, timers, s, model.sessions[s.id].(lonely := None, device := None))
    {
      hide PeerMatches, TimerMatches;
      Apart(s);
      s.lonely := null;
      s.device := null;
    }

    ghost method NoteExpired(p: Peer)
      requires Matches() && Knows(p) && timers[p.pid] != null && !timers[p.pid].pending
      modifies this`model
      ensures Matches() && model == HM.NoteExpired(old(model), p.pid)
    {
      model := HM.NoteExpired(model, p.pid);
    }

    /** `expireLonely`: evicts a device that is alone, says bye to it and closes it. */
    method ExpireLonely(device: Peer)
      requires Valid() && Knows(device) && model.peers[device.pid].timer.Fired?
      modifies this, Repr
      ensures Valid() && Repr == old(Repr) && peers == old(peers) && HM.WellFormed(old(model))
      ensures Expired(HM.Next(cfg, old(model), HM.Expire(device.pid)), HM.Expires(old(model), device.pid), device.pid)
      ensures Outcomes.Expelled(cfg, old(model), model, device.pid)
    {
      hide HM.Enabled, HM.WellFormed, SessionsMatch, PeersMatch, HM.Next, HM.Expires, Runs.Reachable;
      ExpireEnabled(device);
      Runs.ExpireTask(cfg, model, device.pid);
      var evicted := ExpireLocked(device);
      if evicted {
        SayGoodbye(device);
      }
      Outcomes.ExpiryComesTo(cfg, old(model), device.pid, model);
    }

    lemma ExpireEnabled(device: Peer)
      requires Matches() && Knows(device) && model.peers[device.pid].timer.Fired?
      ensures HM.Enabled(model, HM.Expire(device.pid))
    {
      hide PeerMatches, TimerMatches, SessionMatches;
    }

    /** The state is `locked`, once the goroutine that evicted `d` has sent its bye and its close. */
    ghost predicate Expired(locked: HM.State, evicted: bool, d: PM.PeerId)
      reads this
    {
      Runs.SentAway(cfg, locked, evicted, d, model)
    }

    method SayGoodbye(device: Peer)
      requires Valid() && Knows(device) && HM.Enabled(model, HM.ExpireSend(device.pid))
      modifies this`model, device, device.conn
      ensures Valid() && Expired(old(model), true, device.pid)
    {
      hide HM.Next;
      SendBye(device);
      CloseLonely(device);
    }

    method SendBye(device: Peer)
      requires Valid() && Knows(device) && HM.Enabled(model, HM.ExpireSend(device.pid))
      modifies this`model, device, device.conn
      ensures Valid() && HM.WellFormed(old(model)) && model == HM.Next(cfg, old(model), HM.ExpireSend(device.pid))
      ensures HM.WellFormed(model) && HM.Enabled(model, HM.ExpireClose(device.pid))
    {
      Runs.ReachableNext(cfg, model, HM.ExpireSend(device.pid));
      TimerSpent(device);
      hide SessionsMatch, PeersMatch, Runs.Reachable, PM.Send, HM.SlotsOk, HM.TargetsOk;
      ByeTo(device);
      Runs.ReachableForm(cfg, model);
    }

    method ByeTo(device: Peer)
      requires Matches() && Knows(device) && timers[device.pid] != null && !timers[device.pid].pending
      modifies this`model, device, device.conn
      ensures Matches() && device.pid < |old(model).peers|
      ensures var sent := HM.OfferTo(cfg, old(model), device.pid, Bye, PM.TimedOut);
              model == HM.SetPeer(sent, device.pid, sent.peers[device.pid].(timer := PM.Closing))
    {
      SameNames(device);
      hide SessionsMatch, PeersMatch, PM.Send;
      SendTo(device, Bye, PM.TimedOut);
      SetTimer(device, PM.Closing);
    }

    method CloseLonely(device: Peer)
      requires Valid() && Knows(device) && HM.Enabled(model, HM.ExpireClose(device.pid))
      modifies this`model, device, device.conn
      ensures Valid() && HM.WellFormed(old(model)) && model == HM.Next(cfg, old(model), HM.ExpireClose(device.pid))
    {
      Runs.ReachableNext(cfg, model, HM.ExpireClose(device.pid));
      TimerSpent(device);
      hide SessionsMatch, PeersMatch, Runs.Reachable, PM.Close, HM.WellFormed;
      CloseSpent(device);
    }

    method CloseSpent(device: Peer)
      requires Matches() && Knows(device) && timers[device.pid] != null && !timers[device.pid].pending
      modifies this`model, device, device.conn
      ensures Matches() && device.pid < |old(model).peers|
      ensures var m := old(model).peers[device.pid];
              model == HM.SetPeer(old(model), device.pid, m.(box := PM.Close(m.box, PM.NO_RECEIVER), timer := PM.Spent))
    {
      SameNames(device);
      hide SessionsMatch, PeersMatch, PM.Close;
      ClosePeer(device, PM.NO_RECEIVER);
      SetTimer(device, PM.Spent);
    }

    /** A timer that has fired is there, and no longer pending. */
    lemma TimerSpent(p: Peer)
      requires Matches() && Knows(p)
      ensures p.pid < |model.peers|
      ensures !model.peers[p.pid].timer.NoTimer? && !model.peers[p.pid].timer.Armed? ==>
                timers[p.pid] != null && !timers[p.pid].pending
    {
      assert TimerMatches(timers[p.pid], p, model.peers[p.pid].timer);
    }

    // ----- close -----

    /** `Close`, once the connections it cancelled are gone; `closeOnce` lets it run once. */
    method Close()
      requires Valid() && model.phase.Open?
      requires forall p | 0 <= p < |model.peers| && model.peers[p].served :: model.peers[p].task.Gone?
      modifies this, Repr
      ensures Valid() && Repr == old(Repr)
      ensures sessions == map[] && sessionsActive == 0 && model.phase.Shut?
      ensures |old(model).peers| == |model.peers|
      ensures forall i | 0 <= i < |model.peers| :: model.peers[i].box == old(model).peers[i].box
      ensures forall i | 0 <= i < |model.peers| && HM.HoldsTimer(old(model), i) :: !model.peers[i].timer.Armed?
    {
      hide SessionsMatch, PeersMatch, HM.Next, HM.WellFormed, Runs.Reachable;
      BeginClose();
      var remaining := ClearLocked();
      FixGauge(remaining);
    }

    ghost method BeginClose()
      requires Valid() && model.phase.Open?
      modifies this`model
      ensures Valid() && model == old(model).(phase := HM.Draining)
    {
      hide PeerMatches, TimerMatches, SessionMatches;
      Runs.ReachableNext(cfg, model, HM.BeginClose);
      model := model.(phase := HM.Draining);
    }

    /** The region of `Close` under the lock. */
    method ClearLocked() returns (remaining: nat)
      requires Valid() && HM.Enabled(model, HM.Clear)
      modifies this, Repr
      ensures Valid() && Repr == old(Repr) && peers == old(peers) && sessions == map[]
      ensures HM.WellFormed(old(model)) && model == HM.Next(cfg, old(model), HM.Clear)
      ensures remaining == |old(sessions)| && model.phase == HM.Cleared(remaining) && model.sessions == map[]
      ensures |model.peers| == |old(model).peers|
      ensures forall i | 0 <= i < |model.peers| :: model.peers[i].box == old(model).peers[i].box
      ensures forall i | 0 <= i < |model.peers| && HM.HoldsTimer(old(model), i) :: !model.peers[i].timer.Armed?
    {
      hide HM.TargetsOk, TimerMatches, PeerMatches, SessionMatches;
      Runs.ReachableNext(cfg, model, HM.Clear);
      Runs.ClearOutcome(model);
      SameSize();
      hide SessionsMatch, PeersMatch, Runs.Reachable, HM.ClearLock, HM.HoldsTimer, HM.SlotsOk;
      remaining := |sessions|;
      ClearAll();
    }

    method ClearAll()
      requires Matches() && HM.WellFormed(model)
      modifies this, Repr
      ensures Matches() && Repr == old(Repr) && peers == old(peers) && sessions == map[]
      ensures model == HM.ClearLock(old(model))
    {
      hide SessionsMatch, PeersMatch, HM.ClearLock, HM.CalmTo;
      ghost var was := model;
      StopAll();
      DropAll(was);
    }

    lemma SameSize()
      requires Matches()
      ensures |sessions| == |model.sessions|
    {
      hide PeerMatches, TimerMatches, SessionMatches;
      assert model.sessions.Keys == sessions.Keys;
      assert |model.sessions.Keys| == |model.sessions| && |sessions.Keys| == |sessions|;
    }

    method DropAll(ghost was: HM.State)
      requires Matches() && model == HM.CalmTo(was, was.sessions.Keys)
      modifies this`model, this`sessions
      ensures Matches() && sessions == map[] && model == HM.ClearLock(was)
    {
      hide PeerMatches, TimerMatches, SessionMatches, HM.CalmTo, HM.ClearLock;
      HM.CalmToAll(was);
      sessions := map[];
      model := HM.ClearLock(was);
    }

    /** Stops the timer of every session, in no particular order. */
    method StopAll()
      requires Matches() && forall k | k in model.sessions :: HM.SlotsOk(model.peers, k, model.sessions[k])
      modifies this`model, Repr
      ensures Matches() && model == HM.CalmTo(old(model), old(model).sessions.Keys)
    {
      hide PeersMatch, SessionMatches, TimerMatches;
      ghost var was := model;
      var left := sessions.Keys;
      ghost var told: set<string> := {};
      HM.CalmToNone(was);
      while left != {}
        invariant Matches() && told + left == sessions.Keys && told !! left
        invariant model == HM.CalmTo(was, told)
        decreases left
      {
        var k :| k in left;
        StopNext(was, told, sessions[k]);
        left, told := left - {k}, told + {k};
      }
    }

    method StopNext(ghost was: HM.State, ghost told: set<string>, s: Session)
      requires Matches() && s.id in sessions && sessions[s.id] == s && s.id !in told && s.id in was.sessions
      requires HM.SlotsOk(was.peers, s.id, was.sessions[s.id]) && model == HM.CalmTo(was, told)
      modifies this`model, Repr
      ensures Matches() && model == HM.CalmTo(was, told + {s.id})
    {
      HM.CalmToMore(was, told, s.id);
      StopLonely(s);
    }

    method FixGauge(remaining: nat)
      requires Valid() && model.phase == HM.Cleared(remaining)
      modifies this`model, this`sessionsActive
      ensures Valid() && HM.WellFormed(old(model)) && model == HM.Next(cfg, old(model), HM.FixGauge)
      ensures sessionsActive == 0 && model.peers == old(model).peers && model.phase.Shut?
    {
      Runs.ReachableNext(cfg, model, HM.FixGauge);
      sessionsActive := sessionsActive - remaining;
      model := model.(gauge := model.gauge - remaining, phase := HM.Shut);
      Runs.ShutGauge(cfg, model);
    }

    // ----- one connection -----

    /** `handleFrame`: tells whether the client said bye. */
    method HandleFrame(p: Peer, raw: seq<byte>, parse: seq<byte> -> Option<string>) returns (bye: bool)
      requires Valid() && Knows(p) && model.peers[p.pid].task.Idle?
      modifies this`model, peers, set i | 0 <= i < |peers| :: peers[i].conn
      ensures Valid() && p.pid < |model.peers| && model.peers[p.pid].task.Idle?
      ensures bye <==> parse(raw) == Some("bye")
      ensures ActsGrow(old(model).peers[p.pid].acts, model.peers[p.pid].acts,
                       if IsSignal(parse, Text(raw)) then [raw] else [])
      ensures if IsSignal(parse, Text(raw)) then Outcomes.Reaches(cfg, old(model), model, p.pid, Raw(raw))
              else model == old(model)
      ensures model.peers[p.pid].box.writer == old(model).peers[p.pid].box.writer
      ensures Runs.SameStanding(old(model), model, p.pid)
    {
      hide HM.Next;
      var t := parse(raw);
      if t == Some("offer") || t == Some("answer") || t == Some("candidate") {
        Forward(p, raw);
        Runs.ForwardOutcome(cfg, old(model), p.pid, raw, model);
        bye := false;
      } else {
        bye := t == Some("bye");
      }
    }

    /** `readLoop`: passes on the frames of the client, in order and unchanged, until it says bye or
        a read fails. The inputs end with a read error if nothing else ends them. */
    method ReadLoop(p: Peer, inputs: seq<Input>, parse: seq<byte> -> Option<string>) returns (bye: bool)
      requires Valid() && Knows(p) && model.peers[p.pid].task.Idle?
      modifies this`model, peers, set i | 0 <= i < |peers| :: peers[i].conn
      ensures Valid() && p.pid < |model.peers| && model.peers[p.pid].task.Idle?
      ensures ActsGrow(old(model).peers[p.pid].acts, model.peers[p.pid].acts, Passed(parse, inputs))
      ensures model.peers[p.pid].box.writer == old(model).peers[p.pid].box.writer
      ensures Runs.SameStanding(old(model), model, p.pid)
      ensures bye == SaysBye(parse, inputs)
    {
      hide HM.Next, HM.Enabled, HM.WellFormed, Runs.Reachable, Outcomes.Reaches;
      var i := 0;
      ghost var done: seq<seq<byte>> := [];
      bye := false;
      while i < |inputs|
        invariant Valid() && i <= |inputs| && p.pid < |model.peers| && model.peers[p.pid].task.Idle?
        invariant ActsGrow(old(model).peers[p.pid].acts, model.peers[p.pid].acts, done)
        invariant model.peers[p.pid].box.writer == old(model).peers[p.pid].box.writer
        invariant Passed(parse, inputs) == done + Passed(parse, inputs[i..])
        invariant Runs.SameStanding(old(model), model, p.pid)
        invariant !bye && SaysBye(parse, inputs) == SaysBye(parse, inputs[i..])
      {
        ghost var acts := model.peers[p.pid].acts;
        PassedStep(parse, inputs, i, done);
        var input := inputs[i];
        i := i + 1;
        if input.ReadError? {
          return;
        }
        if input.Text? {
          bye := HandleFrame(p, input.raw, parse);
          ActsGrowMore(old(model).peers[p.pid].acts, acts, model.peers[p.pid].acts, done, Forwards(parse, input));
          done := done + Forwards(parse, input);
          if bye {
            return;
          }
        }
      }
    }

    /** The read side is done; the connection's context is cancelled, which ends the write loop. */
    ghost method EndRead(p: Peer)
      requires Valid() && Knows(p) && model.peers[p.pid].task.Idle? && model.peers[p.pid].box.writer.Running?
      modifies this`model, p`box
      ensures Valid() && p.pid < |model.peers| && MayLeave(model.peers[p.pid])
      ensures Runs.SameStanding(old(model), model, p.pid) && model.peers[p.pid].acts == old(model).peers[p.pid].acts
    {
      hide SessionsMatch, PeersMatch;
      SameNames(p);
      Runs.ReachableNext(cfg, model, HM.EndRead(p.pid));
      Runs.ReachableForm(cfg, HM.Next(cfg, model, HM.EndRead(p.pid)));
      Runs.EndReadOutcome(cfg, model, p.pid);
      hide Runs.Reachable, HM.Next, HM.WellFormed, Runs.SameStanding, HM.Enabled;
      Settle(p, PM.Ended);
      CancelWriter(p);
    }

    ghost method CancelWriter(p: Peer)
      requires Valid() && Knows(p) && HM.Enabled(model, HM.StopWriterStep(p.pid))
      modifies this`model, p`box
      ensures Valid() && HM.WellFormed(old(model)) && model == HM.Next(cfg, old(model), HM.StopWriterStep(p.pid))
    {
      Runs.ReachableNext(cfg, model, HM.StopWriterStep(p.pid));
      hide Runs.Reachable, HM.WellFormed, PeerMatches, SessionsMatch;
      ghost var m := model.peers[p.pid];
      CancelAlone(p, m);
      AdoptPeer(p.pid, m.(box := PM.StopWriter(m.box)));
    }

    ghost method CancelAlone(p: Peer, m: PM.Peer)
      requires Matches() && Knows(p) && m == model.peers[p.pid] && m.box.writer.Running?
      modifies p`box
      ensures ModelsButPeer(model, p.pid)
      ensures PeerMatches(cfg, p, m.(box := PM.StopWriter(m.box)), p.pid)
    {
      PeersApart(p);
      hide SessionMatches, TimerMatches;
      p.Cancel();
    }

    /** `handleConn`: makes one join, passes on what the client sends, and undoes the join by one leave. `met` is
        the state when the join is over. */
    method HandleConn(first: Input, token: string, inputs: seq<Input>,
                      parse: seq<byte> -> Option<string>, decode: seq<byte> -> Option<JoinMessage>)
      returns (joined: bool, ghost met: HM.State)
      requires Valid() && model.phase.Open?
      modifies this, Repr
      ensures Valid() && fresh(Repr - old(Repr))
      ensures joined <==>
                && !first.ReadError? && parse(first.raw) == Some("join") && decode(first.raw).Some?
                && decode(first.raw).value.session != "" && decode(first.raw).value.role in {"device", "phone"}
      ensures !joined ==> model == old(model)
      ensures joined ==>
                && Outcomes.Welcomed(cfg, old(model), met, decode(first.raw).value, token, true)
                && Outcomes.Displaces(cfg, old(model), met, decode(first.raw).value)
                && HM.Seated(met, |old(model).peers|)
      ensures joined ==>
                && |model.peers| == |old(model).peers| + 1
                && model.exits.left == old(model).exits.left + 1
                && Conversed(model.peers[|old(model).peers|].acts, Passed(parse, inputs))
                && model.peers[|old(model).peers|].task.Gone? && !HM.Seated(model, |old(model).peers|)
                && Outcomes.Named(cfg, model.peers[|old(model).peers|], decode(first.raw).value, true)
    {
      hide HM.Next, Outcomes.Displaces, Outcomes.Welcomed, Outcomes.Named, HR.SameIdentity, Conversed;
      var m := AwaitJoin(parse, decode, first);
      if m.None? {
        return false, model;
      }
      ghost var was := model;
      var r := Join(m.value, token, true);
      met := model;
      if r.Err? {
        return false, met;
      }
      Runs.JoinOutcome(cfg, was, m.value, token, true);
      Runs.FinishJoinOutcome(cfg, HM.Next(cfg, was, HM.Join(m.value, token, true)), |was.peers|);
      Serve(r.value, inputs, parse);
      Outcomes.NamedStays(cfg, was, met, model, m.value, token, true);
      joined := true;
    }

    /** What `handleConn` does once the peer has joined. */
    method Serve(p: Peer, inputs: seq<Input>, parse: seq<byte> -> Option<string>)
      requires Valid() && Knows(p) && model.peers[p.pid].task.Idle? && model.peers[p.pid].box.writer.Running?
      requires HM.Seated(model, p.pid) && model.peers[p.pid].acts == []
      modifies this, Repr
      ensures Valid() && Repr == old(Repr)
      ensures |model.peers| == |old(model).peers| && model.exits.left == old(model).exits.left + 1
      ensures p.pid < |model.peers| && model.peers[p.pid].task.Gone? && !HM.Seated(model, p.pid)
      ensures Conversed(model.peers[p.pid].acts, Passed(parse, inputs))
      ensures HR.SameIdentity(old(model).peers[p.pid], model.peers[p.pid])
    {
      hide HM.Next, HM.WellFormed, Runs.Reachable, HM.Seated, SessionsMatch, PeersMatch, PM.WriterDone;
      var bye := ReadLoop(p, inputs, parse);
      EndRead(p);
      ghost var was := model;
      LeaveEnabled(p);
      Leave(p);
      Runs.LeaveOutcome(cfg, was, p.pid, model);
    }
  }

  /** One act for each of `raws`, byte for byte, and then one bye. */
  ghost predicate Conversed(acts: seq<PM.Act>, raws: seq<seq<byte>>)
  {
    && |acts| == |raws| + 1
    && (forall k | 0 <= k < |raws| :: acts[k].frame == Raw(raws[k]))
    && acts[|raws|].frame == Bye
  }
}
