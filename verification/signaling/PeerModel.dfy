/** One connected client: its bounded outbound queue, its close request, its writer, the place
    its goroutines have reached, and the histories that the properties are about. */
module PeerModel {
  import opened Protocol

  /** Peers are told apart by identity in the program; here a peer is its position in the order
      of joins. */
  type PeerId = nat

  /** Why a frame was offered to a queue. */
  datatype Cause =
    | Welcome
    | Paired(device: PeerId, phone: PeerId)
    | Announced(joiner: PeerId)
    | Relayed(from: PeerId, n: nat)
    | TimedOut

  datatype Offer = Offer(frame: Frame, cause: Cause, accepted: bool)

  /** A call of `forward`, or a `leave` that had an effect, with the counterpart its locked
      lookup found. */
  datatype Act = Act(frame: Frame, to: Option<PeerId>)

  /** Where the connection goroutine of a peer is. `Joining`, `Relaying` and `Departing` are the
      gaps between an unlock and the effect that follows it. */
  datatype Task = Joining(replaced: Option<PeerId>) | Idle | Relaying | Ended | Departing | Gone

  /** The timer a lone device gets, and the goroutine it runs when it fires. */
  datatype Timer = NoTimer | Armed | Stopped | Fired | Evicting | Closing | Spent

  datatype Writer = Running | Flushing(reason: string) | Closed(reason: string) | Dead

  /** The channels of a peer and what has passed through them. */
  datatype Outbox = Outbox(
    queue: seq<Frame>,          // the out channel
    asked: Option<string>,      // reason of the one call closeOnce lets through
    closing: seq<string>,       // the closing channel, of capacity one
    refused: nat,               // close requests that met a full closing channel
    writer: Writer,
    written: seq<Frame>,        // frames written to the socket
    lost: seq<Frame>,           // the frame whose write failed
    offered: seq<Offer>,        // every send, accepted or dropped
    mark: nat)                  // how many sends preceded the close request

  datatype Peer = Peer(
    role: Role,
    key: string,                // lowercased session id
    name: string,               // session id as the client wrote it
    served: bool,               // joined by handleConn, not by a direct call
    box: Outbox,
    task: Task,
    timer: Timer,
    acts: seq<Act>)

  const EMPTY_BOX := Outbox([], None, [], 0, Running, [], [], [], 0)

  function NewPeer(role: Role, key: string, name: string, served: bool, replaced: Option<PeerId>): Peer
  {
    Peer(role, key, name, served, EMPTY_BOX, Joining(replaced), NoTimer, [])
  }

  const BUFFER_FULL := "send buffer full"
  const NO_RECEIVER := "no receiver"

  // ----- queue and close request -----

  function RequestClose(b: Outbox, reason: string): Outbox
  {
    if b.closing == [] then b.(closing := [reason]) else b.(refused := b.refused + 1)
  }

  function Close(b: Outbox, reason: string): Outbox
  {
    if b.asked.Some? then b
    else RequestClose(b.(asked := Some(reason), mark := |b.offered|), reason)
  }

  function Send(cfg: Config, b: Outbox, frame: Frame, cause: Cause): Outbox
  {
    if |b.queue| < cfg.sendBuffer then
      b.(queue := b.queue + [frame], offered := b.offered + [Offer(frame, cause, true)])
    else
      Close(b.(offered := b.offered + [Offer(frame, cause, false)]), BUFFER_FULL)
  }

  /** One frame was offered: a queue with room took it, and a full one cost its peer the connection, unless
      a close had been requested before. */
  ghost predicate Offered(cfg: Config, a: Outbox, b: Outbox, frame: Frame)
  {
    var room, last := |a.queue| < cfg.sendBuffer, |a.offered|;
    && b.written == a.written && b.writer == a.writer
    && |b.offered| == last + 1 && b.offered[..last] == a.offered
    && b.offered[last].frame == frame && b.offered[last].accepted == room
    && b.queue == (if room then a.queue + [frame] else a.queue)
    && b.asked == (if room || a.asked.Some? then a.asked else Some("send buffer full"))
    && b.closing == if room || a.asked.Some? || a.closing != [] then a.closing else ["send buffer full"]
  }

  lemma SendOffers(cfg: Config, b: Outbox, frame: Frame, cause: Cause)
    ensures Offered(cfg, b, Send(cfg, b, frame, cause), frame)
  {
  }

  // ----- writer -----

  predicate WriterDone(b: Outbox) { b.writer.Closed? || b.writer.Dead? }

  function Write(b: Outbox): Outbox
    requires b.queue != []
  {
    b.(queue := b.queue[1..], written := b.written + [b.queue[0]])
  }

  function WriteFail(b: Outbox): Outbox
    requires b.queue != []
  {
    b.(queue := b.queue[1..], lost := b.lost + [b.queue[0]], writer := Dead)
  }

  function TakeClose(b: Outbox): Outbox
    requires b.closing != []
  {
    b.(closing := b.closing[1..], writer := Flushing(b.closing[0]))
  }

  function FlushEnd(b: Outbox): Outbox
    requires b.writer.Flushing?
  {
    b.(writer := Closed(b.writer.reason))
  }

  function StopWriter(b: Outbox): Outbox
  {
    b.(writer := Dead)
  }

  // ----- histories -----

  /** The frames of the accepted offers, in order. */
  function Accepted(offers: seq<Offer>): seq<Frame>
  {
    if offers == [] then []
    else
      var last := offers[|offers| - 1];
      Accepted(offers[..|offers| - 1]) + if last.accepted then [last.frame] else []
  }

  function Frames(offers: seq<Offer>): seq<Frame>
  {
    seq(|offers|, i requires 0 <= i < |offers| => offers[i].frame)
  }

  lemma AcceptedAppend(offers: seq<Offer>, o: Offer)
    ensures Accepted(offers + [o]) == Accepted(offers) + if o.accepted then [o.frame] else []
  {
    assert (offers + [o])[..|offers|] == offers;
  }

  lemma {:induction false} AcceptedConcat(a: seq<Offer>, b: seq<Offer>)
    ensures Accepted(a + b) == Accepted(a) + Accepted(b)
  {
    if b == [] {
      assert a + b == a;
    } else {
      var front, last := b[..|b| - 1], b[|b| - 1];
      AcceptedConcat(a, front);
      assert a + b == (a + front) + [last];
      AcceptedAppend(a + front, last);
    }
  }

  /** An accepted offer is found in the accepted stream at the place given by what was accepted
      before it. */
  lemma AcceptedAt(offers: seq<Offer>, i: nat)
    requires i < |offers| && offers[i].accepted
    ensures |Accepted(offers[..i])| < |Accepted(offers)|
    ensures Accepted(offers)[|Accepted(offers[..i])|] == offers[i].frame
    ensures forall m | i < m <= |offers| :: |Accepted(offers[..i])| < |Accepted(offers[..m])|
  {
    forall m | i < m <= |offers|
      ensures |Accepted(offers[..i])| < |Accepted(offers[..m])|
      ensures Accepted(offers[..m])[|Accepted(offers[..i])|] == offers[i].frame
    {
      assert offers[..m] == (offers[..i] + [offers[i]]) + offers[i + 1..m];
      AcceptedAppend(offers[..i], offers[i]);
      AcceptedConcat(offers[..i] + [offers[i]], offers[i + 1..m]);
    }
    assert offers[..|offers|] == offers;
  }

  lemma {:induction false} AllAccepted(offers: seq<Offer>)
    requires forall i | 0 <= i < |offers| :: offers[i].accepted
    ensures Accepted(offers) == Frames(offers)
  {
    if offers != [] {
      AllAccepted(offers[..|offers| - 1]);
    }
  }

  // ----- what a peer's queue, close request and writer keep -----

  ghost predicate OutboxOk(cfg: Config, b: Outbox)
  {
    && |b.queue| <= cfg.sendBuffer
    && b.written + b.lost + b.queue == Accepted(b.offered)
    && |b.lost| <= 1 && (b.lost != [] ==> b.writer.Dead?)
    && b.refused == 0
    && |b.closing| <= 1
    && (b.asked.None? ==>
          && b.closing == []
          && (b.writer.Running? || b.writer.Dead?)
          && forall i | 0 <= i < |b.offered| :: b.offered[i].accepted)
    && (b.closing != [] ==> b.asked == Some(b.closing[0]) && (b.writer.Running? || b.writer.Dead?))
    && (b.writer.Flushing? || b.writer.Closed? ==> b.asked == Some(b.writer.reason) && b.closing == [])
    && (b.asked.Some? ==> b.mark <= |b.offered|)
    && (b.writer.Closed? ==> |Accepted(b.offered[..b.mark])| <= |b.written|)
  }

  lemma CloseKeepsOutbox(cfg: Config, b: Outbox, reason: string)
    requires OutboxOk(cfg, b)
    ensures OutboxOk(cfg, Close(b, reason))
  {
    assert b.offered[..|b.offered|] == b.offered;
  }

  lemma SendKeepsOutbox(cfg: Config, b: Outbox, frame: Frame, cause: Cause)
    requires OutboxOk(cfg, b)
    ensures OutboxOk(cfg, Send(cfg, b, frame, cause))
  {
    var o := Offer(frame, cause, |b.queue| < cfg.sendBuffer);
    AcceptedAppend(b.offered, o);
    var q := b.(offered := b.offered + [o]);
    if b.asked.Some? {
      assert q.offered[..b.mark] == b.offered[..b.mark];
    }
    assert q.offered[..|q.offered|] == q.offered;
    if o.accepted {
      assert b.written + b.lost + (b.queue + [frame]) == b.written + b.lost + b.queue + [frame];
    }
  }

  lemma WriteKeepsOutbox(cfg: Config, b: Outbox)
    requires OutboxOk(cfg, b) && b.queue != [] && !WriterDone(b)
    ensures OutboxOk(cfg, Write(b))
  {
    assert b.lost == [];
    assert b.written + [] + b.queue == (b.written + [b.queue[0]]) + [] + b.queue[1..];
  }

  lemma WriteFailKeepsOutbox(cfg: Config, b: Outbox)
    requires OutboxOk(cfg, b) && b.queue != [] && !WriterDone(b)
    ensures OutboxOk(cfg, WriteFail(b))
  {
    assert b.lost == [];
    assert b.written + [] + b.queue == b.written + ([] + [b.queue[0]]) + b.queue[1..];
  }

  lemma TakeCloseKeepsOutbox(cfg: Config, b: Outbox)
    requires OutboxOk(cfg, b) && b.closing != [] && b.writer.Running?
    ensures OutboxOk(cfg, TakeClose(b))
  {
  }

  /** The queue is empty when the close frame goes out, so everything accepted before the request
      is on the wire. */
  lemma FlushEndKeepsOutbox(cfg: Config, b: Outbox)
    requires OutboxOk(cfg, b) && b.queue == [] && b.writer.Flushing?
    ensures OutboxOk(cfg, FlushEnd(b))
  {
    assert b.offered == b.offered[..b.mark] + b.offered[b.mark..];
    AcceptedConcat(b.offered[..b.mark], b.offered[b.mark..]);
    assert b.written + [] + [] == b.written;
  }

  lemma StopWriterKeepsOutbox(cfg: Config, b: Outbox)
    requires OutboxOk(cfg, b) && !b.writer.Closed?
    ensures OutboxOk(cfg, StopWriter(b))
  {
  }

  /** A writer that has closed the socket has written, in order, all that was accepted before the
      close was requested. */
  lemma FlushedAt(cfg: Config, b: Outbox, j: nat)
    requires OutboxOk(cfg, b) && b.writer.Closed? && j < b.mark && j < |b.offered| && b.offered[j].accepted
    ensures b.asked == Some(b.writer.reason)
    ensures |Accepted(b.offered[..j])| < |b.written|
    ensures b.written[|Accepted(b.offered[..j])|] == b.offered[j].frame
    ensures b.written <= Accepted(b.offered)
  {
    AcceptedAt(b.offered, j);
    assert Accepted(b.offered) == b.written + [] + b.queue;
  }
}
