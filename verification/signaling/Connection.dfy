/** A peer and its connection as objects: the queue that `send` pushes, the close request that
    `closeOnce` guards, and the loops that drain the queue onto the socket. */
module Connection {
  import opened Protocol
  import PM = PeerModel

  /** The socket side of one client. `closing` is a channel of capacity one. */
  class Conn {
    ghost const pid: nat
    var closing: seq<string>
    var socket: seq<Frame>          // frames written so far
    var closedWith: Option<string>  // reason of the close frame

    constructor (ghost pid: nat)
      ensures this.pid == pid && closing == [] && socket == [] && closedWith == None
    {
      this.pid := pid;
      closing, socket, closedWith := [], [], None;
    }

    method RequestClose(reason: string)
      modifies this`closing
      ensures closing == if old(closing) == [] then [reason] else old(closing)
    {
      if |closing| < 1 {
        closing := closing + [reason];
      }
    }
  }

  /** A turn of the write loop, or what another goroutine does between two turns. */
  datatype Event =
    | Pushed(frame: Frame, cause: PM.Cause)   // another goroutine sends to this peer
    | Asked(reason: string)                   // another goroutine closes this peer
    | TakeFrame(written: bool)                // `select` picks the queue; the write succeeds or fails
    | TakeClose                               // `select` picks the close request
    | CtxDone                                 // `select` picks the end of the context
    | Ping(answered: bool)                    // `select` picks the ticker

  /** What an event makes of the channels. In the flush every turn drains the queue first. */
  function React(cfg: Config, b: PM.Outbox, e: Event): PM.Outbox
  {
    if e.Pushed? then PM.Send(cfg, b, e.frame, e.cause)
    else if e.Asked? then PM.Close(b, e.reason)
    else
      match b.writer
      case Running =>
        (match e
         case TakeFrame(ok) => if b.queue == [] then b else if ok then PM.Write(b) else PM.WriteFail(b)
         case TakeClose => if b.closing == [] then b else PM.TakeClose(b)
         case Ping(true) => b
         case _ => PM.StopWriter(b))
      case Flushing(_) =>
        if b.queue == [] then PM.FlushEnd(b) else if e == TakeFrame(false) then PM.WriteFail(b) else PM.Write(b)
      case _ => b
  }

  function ReactAll(cfg: Config, b: PM.Outbox, es: seq<Event>): PM.Outbox
  {
    if es == [] then b else React(cfg, ReactAll(cfg, b, es[..|es| - 1]), es[|es| - 1])
  }

  lemma ReactKeepsOutbox(cfg: Config, b: PM.Outbox, e: Event)
    requires PM.OutboxOk(cfg, b)
    ensures PM.OutboxOk(cfg, React(cfg, b, e))
  {
    if e.Pushed? {
      PM.SendKeepsOutbox(cfg, b, e.frame, e.cause);
    } else if e.Asked? {
      PM.CloseKeepsOutbox(cfg, b, e.reason);
    } else if b.queue != [] && !PM.WriterDone(b) {
      PM.WriteKeepsOutbox(cfg, b);
      PM.WriteFailKeepsOutbox(cfg, b);
    } else if b.writer.Flushing? {
      PM.FlushEndKeepsOutbox(cfg, b);
    }
  }

  lemma {:induction false} ReactAllKeepsOutbox(cfg: Config, b: PM.Outbox, es: seq<Event>)
    requires PM.OutboxOk(cfg, b)
    ensures PM.OutboxOk(cfg, ReactAll(cfg, b, es))
  {
    if es != [] {
      ReactAllKeepsOutbox(cfg, b, es[..|es| - 1]);
      ReactKeepsOutbox(cfg, ReactAll(cfg, b, es[..|es| - 1]), es[|es| - 1]);
    }
  }

  lemma ReactAllNext(cfg: Config, b: PM.Outbox, es: seq<Event>, i: nat)
    requires i < |es|
    ensures ReactAll(cfg, b, es[..i + 1]) == React(cfg, ReactAll(cfg, b, es[..i]), es[i])
  {
    assert es[..i + 1][..i] == es[..i];
  }

  // ----- what turns achieve -----

  predicate FromOthers(e: Event) { e.Pushed? || e.Asked? }

  /** A turn that goes well and does not end the loop, or what another goroutine does. */
  predicate Smooth(e: Event) { FromOthers(e) || e == TakeFrame(true) || e == Ping(true) }

  /** How many turns took the queue. */
  function Takes(es: seq<Event>): nat
  {
    if es == [] then 0 else Takes(es[..|es| - 1]) + if es[|es| - 1].TakeFrame? then 1 else 0
  }

  /** How many turns the loop itself had. */
  function Turns(es: seq<Event>): nat
  {
    if es == [] then 0 else Turns(es[..|es| - 1]) + if FromOthers(es[|es| - 1]) then 0 else 1
  }

  function Pushes(es: seq<Event>): nat
  {
    if es == [] then 0 else Pushes(es[..|es| - 1]) + if es[|es| - 1].Pushed? then 1 else 0
  }

  function Min(a: nat, b: nat): nat { if a < b then a else b }

  /** `k` turns have taken frames off the queue `was` and onto the socket, in order; without pushes by
      others, exactly as many as there were. */
  ghost predicate Carried(was: seq<Frame>, socketWas: seq<Frame>, socket: seq<Frame>, out: seq<Frame>,
                          k: nat, undisturbed: bool)
  {
    && socketWas + was <= socket + out
    && |socket| >= |socketWas| + Min(k, |was|)
    && (undisturbed ==> socket == socketWas + was[..Min(k, |was|)] && out == was[Min(k, |was|)..])
  }

  ghost predicate Undisturbed(es: seq<Event>)
  {
    forall e | e in es :: !e.Pushed?
  }

  /** Turns that go well carry the queue to the socket, frame by frame. */
  lemma {:induction false} SmoothTurns(cfg: Config, b: PM.Outbox, es: seq<Event>)
    requires b.writer.Running? && forall e | e in es :: Smooth(e)
    ensures var r := ReactAll(cfg, b, es);
            r.writer.Running? && Carried(b.queue, b.written, r.written, r.queue, Takes(es), Undisturbed(es))
  {
    if es == [] {
      assert b.written + b.queue[..0] == b.written;
    } else {
      var front := es[..|es| - 1];
      SmoothTurns(cfg, b, front);
      assert Undisturbed(es) ==> Undisturbed(front);
      SmoothTurn(cfg, b, ReactAll(cfg, b, front), es[|es| - 1], Takes(front), Undisturbed(front));
    }
  }

  lemma SmoothTurn(cfg: Config, b: PM.Outbox, r: PM.Outbox, e: Event, k: nat, undisturbed: bool)
    requires r.writer.Running? && Smooth(e)
    requires Carried(b.queue, b.written, r.written, r.queue, k, undisturbed)
    ensures var to := React(cfg, r, e);
            && to.writer.Running?
            && Carried(b.queue, b.written, to.written, to.queue, k + if e.TakeFrame? then 1 else 0,
                       undisturbed && !e.Pushed?)
  {
    if e.Pushed? {
      hide PM.Send, PM.Offered;
      PushGrows(cfg, r, e.frame, e.cause);
    } else if e.TakeFrame? && r.queue != [] {
      assert (r.written + [r.queue[0]]) + r.queue[1..] == r.written + r.queue;
    }
  }

  /** A push may only add to the end of the queue. */
  lemma PushGrows(cfg: Config, b: PM.Outbox, frame: Frame, cause: PM.Cause)
    ensures var to := PM.Send(cfg, b, frame, cause);
            && to.writer == b.writer && to.written == b.written && |to.queue| <= |b.queue| + 1
            && b.written + b.queue <= to.written + to.queue
  {
    PM.SendOffers(cfg, b, frame, cause);
    assert b.written + (b.queue + [frame]) == b.written + b.queue + [frame];
  }

  /** In the flush, every turn takes a frame to the socket or, when there is none left, ends with the close
      frame. */
  ghost predicate Flushes(b: PM.Outbox, r: PM.Outbox, turns: nat, pushes: nat)
    requires b.writer.Flushing?
  {
    && b.written + b.queue <= r.written + r.queue
    && if r.writer == b.writer then turns + |r.queue| <= |b.queue| + pushes
       else r.writer == PM.Closed(b.writer.reason)
  }

  lemma {:induction false} FlushTurns(cfg: Config, b: PM.Outbox, es: seq<Event>)
    requires b.writer.Flushing? && TakeFrame(false) !in es
    ensures Flushes(b, ReactAll(cfg, b, es), Turns(es), Pushes(es))
  {
    hide React, Flushes;
    if es == [] {
      FlushBegins(b);
    } else {
      var front := es[..|es| - 1];
      FlushTurns(cfg, b, front);
      FlushTurn(cfg, b, ReactAll(cfg, b, front), es[|es| - 1], Turns(front), Pushes(front));
    }
  }

  lemma FlushBegins(b: PM.Outbox)
    requires b.writer.Flushing?
    ensures Flushes(b, b, 0, 0)
  {
  }

  lemma FlushTurn(cfg: Config, b: PM.Outbox, r: PM.Outbox, e: Event, turns: nat, pushes: nat)
    requires b.writer.Flushing? && e != TakeFrame(false) && Flushes(b, r, turns, pushes)
    ensures Flushes(b, React(cfg, r, e), turns + (if FromOthers(e) then 0 else 1), pushes + if e.Pushed? then 1 else 0)
  {
    if e.Pushed? {
      hide PM.Send, PM.Offered;
      PushGrows(cfg, r, e.frame, e.cause);
    } else if !e.Asked? && r.queue != [] {
      assert (r.written + [r.queue[0]]) + r.queue[1..] == r.written + r.queue;
    }
  }

  // ----- what ends the loop -----

  ghost predicate SmoothTo(es: seq<Event>, k: nat)
  {
    k < |es| && forall e | e in es[..k] :: Smooth(e)
  }

  /** The turn `k` takes a close request that was pending from the start, and the turns after it suffice for
      what is then queued: the close frame is sent, with the reason that was given. */
  ghost predicate HeedsClose(b: PM.Outbox, es: seq<Event>, r: PM.Outbox)
  {
    forall k: nat | SmoothTo(es, k) && es[k] == TakeClose && b.closing != [] && TakeFrame(false) !in es[k + 1..]
                    && Turns(es[k + 1..]) > |b.queue| + Pushes(es) ::
      r.writer == PM.Closed(b.closing[0])
  }

  /** The turn `k` finds the context done, or the ping unanswered: the loop ends without a close frame. */
  ghost predicate HeedsEnd(es: seq<Event>, r: PM.Outbox)
  {
    forall k: nat | SmoothTo(es, k) && (es[k] == CtxDone || es[k] == Ping(false)) :: r.writer.Dead?
  }

  lemma {:induction false} QueueGrows(cfg: Config, b: PM.Outbox, es: seq<Event>)
    ensures |ReactAll(cfg, b, es).queue| <= |b.queue| + Pushes(es)
  {
    hide PM.Send;
    if es != [] {
      var r, e := ReactAll(cfg, b, es[..|es| - 1]), es[|es| - 1];
      QueueGrows(cfg, b, es[..|es| - 1]);
      if e.Pushed? {
        PushGrows(cfg, r, e.frame, e.cause);
      }
    }
  }

  lemma {:induction false} PushesConcat(a: seq<Event>, c: seq<Event>)
    ensures Pushes(a + c) == Pushes(a) + Pushes(c)
  {
    if c == [] {
      assert a + c == a;
    } else {
      PushesConcat(a, c[..|c| - 1]);
      assert (a + c)[..|a + c| - 1] == a + c[..|c| - 1];
    }
  }

  /** A pending close request stays until a turn takes it. */
  lemma {:induction false} RequestStays(cfg: Config, b: PM.Outbox, es: seq<Event>)
    requires b.writer.Running? && b.closing != [] && forall e | e in es :: Smooth(e)
    ensures ReactAll(cfg, b, es).closing != [] && ReactAll(cfg, b, es).closing[0] == b.closing[0]
  {
    if es != [] {
      SmoothTurns(cfg, b, es[..|es| - 1]);
      RequestStays(cfg, b, es[..|es| - 1]);
      RequestKept(cfg, ReactAll(cfg, b, es[..|es| - 1]), es[|es| - 1]);
    }
  }

  lemma RequestKept(cfg: Config, r: PM.Outbox, e: Event)
    requires r.writer.Running? && r.closing != [] && Smooth(e)
    ensures React(cfg, r, e).closing == r.closing
  {
    if e.Pushed? {
      PM.SendOffers(cfg, r, e.frame, e.cause);
    }
  }

  lemma {:induction false} DoneStays(cfg: Config, b: PM.Outbox, es: seq<Event>)
    requires PM.WriterDone(b)
    ensures ReactAll(cfg, b, es).writer == b.writer
  {
    if es != [] {
      DoneStays(cfg, b, es[..|es| - 1]);
    }
  }

  /** The state of the writer before and after the turn `k`, the first that does not go on. */
  lemma FirstStop(cfg: Config, b: PM.Outbox, es: seq<Event>, k: nat, i: nat)
    requires b.writer.Running? && SmoothTo(es, k) && i <= |es|
    requires i == |es| || PM.WriterDone(ReactAll(cfg, b, es[..i]))
    ensures k < i && ReactAll(cfg, b, es[..k]).writer.Running?
    ensures ReactAll(cfg, b, es[..i])
         == ReactAll(cfg, React(cfg, ReactAll(cfg, b, es[..k]), es[k]), es[k + 1..i])
  {
    hide ReactAll, React;
    SmoothTurns(cfg, b, es[..k]);
    if i <= k {
      assert es[..i] == es[..k][..i];
      SmoothTurns(cfg, b, es[..i]);
      assert false;
    }
    ReactAllNext(cfg, b, es, k);
    assert es[..i] == es[..k + 1] + es[k + 1..i];
    ReactAllConcat(cfg, b, es[..k + 1], es[k + 1..i]);
  }

  lemma CloseHeeded(cfg: Config, b: PM.Outbox, es: seq<Event>, k: nat, i: nat)
    requires b.writer.Running? && SmoothTo(es, k) && i <= |es|
    requires i == |es| || PM.WriterDone(ReactAll(cfg, b, es[..i]))
    requires es[k] == TakeClose && b.closing != [] && TakeFrame(false) !in es[k + 1..]
    requires Turns(es[k + 1..]) > |b.queue| + Pushes(es)
    ensures ReactAll(cfg, b, es[..i]).writer == PM.Closed(b.closing[0])
  {
    hide ReactAll, Turns, Pushes;
    FirstStop(cfg, b, es, k, i);
    RequestStays(cfg, b, es[..k]);
    QueueGrows(cfg, b, es[..k]);
    PushesConcat(es[..k], [es[k]] + es[k + 1..]);
    PushesConcat([es[k]], es[k + 1..]);
    assert es == es[..k] + ([es[k]] + es[k + 1..]);
    var flushing := React(cfg, ReactAll(cfg, b, es[..k]), es[k]);
    SliceLacks(es, k + 1, i, TakeFrame(false));
    FlushTurns(cfg, flushing, es[k + 1..i]);
    assert i == |es| ==> es[k + 1..i] == es[k + 1..];
  }

  lemma SliceLacks(es: seq<Event>, from: nat, to: nat, e: Event)
    requires from <= to <= |es| && e !in es[from..]
    ensures e !in es[from..to]
  {
    assert es[from..to] == es[from..][..to - from];
  }

  lemma EndHeeded(cfg: Config, b: PM.Outbox, es: seq<Event>, k: nat, i: nat)
    requires b.writer.Running? && SmoothTo(es, k) && i <= |es|
    requires i == |es| || PM.WriterDone(ReactAll(cfg, b, es[..i]))
    requires es[k] == CtxDone || es[k] == Ping(false)
    ensures ReactAll(cfg, b, es[..i]).writer.Dead?
  {
    hide ReactAll;
    FirstStop(cfg, b, es, k, i);
    DoneStays(cfg, React(cfg, ReactAll(cfg, b, es[..k]), es[k]), es[k + 1..i]);
  }

  /** A schedule is heeded up to its first turn that does not go on. */
  lemma LoopHeeds(cfg: Config, b: PM.Outbox, es: seq<Event>, i: nat)
    requires b.writer.Running? && i <= |es|
    requires i == |es| || PM.WriterDone(ReactAll(cfg, b, es[..i]))
    ensures HeedsClose(b, es, ReactAll(cfg, b, es[..i])) && HeedsEnd(es, ReactAll(cfg, b, es[..i]))
  {
    hide ReactAll, Turns, Pushes;
    forall k: nat | SmoothTo(es, k) && (es[k] == CtxDone || es[k] == Ping(false))
      ensures ReactAll(cfg, b, es[..i]).writer.Dead?
    {
      EndHeeded(cfg, b, es, k, i);
    }
    forall k: nat | SmoothTo(es, k) && es[k] == TakeClose && b.closing != []
                    && TakeFrame(false) !in es[k + 1..] && Turns(es[k + 1..]) > |b.queue| + Pushes(es)
      ensures ReactAll(cfg, b, es[..i]).writer == PM.Closed(b.closing[0])
    {
      CloseHeeded(cfg, b, es, k, i);
    }
  }

  lemma {:induction false} ReactAllConcat(cfg: Config, b: PM.Outbox, a: seq<Event>, c: seq<Event>)
    ensures ReactAll(cfg, b, a + c) == ReactAll(cfg, ReactAll(cfg, b, a), c)
  {
    if c == [] {
      assert a + c == a;
    } else {
      ReactAllConcat(cfg, b, a, c[..|c| - 1]);
      assert (a + c)[..|a + c| - 1] == a + c[..|c| - 1];
    }
  }

  class Peer {
    ghost const pid: nat
    const cfg: Config
    const role: Role
    const sessionID: string
    const name: string
    const imei: string
    const served: bool
    const conn: Conn
    var out: seq<Frame>
    var closeCalled: bool           // closeOnce has run
    ghost var box: PM.Outbox        // the channels with their histories

    ghost predicate Valid()
      reads this, conn
    {
      && conn.pid == pid
      && out == box.queue
      && closeCalled == box.asked.Some?
      && conn.closing == box.closing
      && conn.socket == box.written
      && conn.closedWith == if box.writer.Closed? then Some(box.writer.reason) else None
    }

    constructor (ghost pid: nat, cfg: Config, role: Role, sessionID: string, name: string, imei: string,
                 served: bool, conn: Conn)
      requires conn.pid == pid && conn.closing == [] && conn.socket == [] && conn.closedWith == None
      ensures Valid() && box == PM.EMPTY_BOX
      ensures this.pid == pid && this.cfg == cfg && this.role == role && this.sessionID == sessionID
      ensures this.name == name && this.imei == imei && this.served == served && this.conn == conn
    {
      this.pid, this.cfg, this.role, this.sessionID := pid, cfg, role, sessionID;
      this.name, this.imei, this.served, this.conn := name, imei, served, conn;
      out, closeCalled := [], false;
      box := PM.EMPTY_BOX;
    }

    /** `peer.close`: only the first call reaches the connection. */
    method Close(reason: string)
      requires Valid()
      modifies this`closeCalled, this`box, conn`closing
      ensures Valid() && box == PM.Close(old(box), reason) && closeCalled
      ensures conn.closing == if old(closeCalled) || old(conn.closing) != [] then old(conn.closing) else [reason]
    {
      if !closeCalled {
        closeCalled := true;
        conn.RequestClose(reason);
        box := PM.Close(box, reason);
      }
    }

    /** `peer.send`: never blocks; a full queue costs the peer its connection. */
    method Send(frame: Frame, ghost cause: PM.Cause)
      requires Valid()
      modifies this`out, this`closeCalled, this`box, conn`closing
      ensures Valid() && box == PM.Send(cfg, old(box), frame, cause)
      ensures out == if |old(out)| < cfg.sendBuffer then old(out) + [frame] else old(out)
      ensures closeCalled == (old(closeCalled) || |old(out)| >= cfg.sendBuffer)
      ensures conn.closing == if |old(out)| < cfg.sendBuffer || old(closeCalled) || old(conn.closing) != []
                              then old(conn.closing) else ["send buffer full"]
    {
      if |out| < cfg.sendBuffer {
        out := out + [frame];
        box := PM.Send(cfg, box, frame, cause);
      } else {
        box := box.(offered := box.offered + [PM.Offer(frame, cause, false)]);
        Close(PM.BUFFER_FULL);
      }
    }

    /** The write loop ends because its context did. */
    ghost method Cancel()
      requires Valid() && box.writer.Running?
      modifies this`box
      ensures Valid() && box == PM.StopWriter(old(box))
    {
      box := PM.StopWriter(box);
    }

    /** Another goroutine's turn. */
    method Disturb(e: Event)
      requires Valid() && (e.Pushed? || e.Asked?)
      modifies this`out, this`closeCalled, this`box, conn`closing
      ensures Valid() && box == React(cfg, old(box), e)
    {
      match e
      case Pushed(frame, cause) => Send(frame, cause);
      case Asked(reason) => Close(reason);
    }

    /** Takes the first queued frame to the socket. */
    method WriteOne(written: bool)
      requires Valid() && out != [] && !box.writer.Closed?
      modifies this`out, this`box, conn`socket
      ensures Valid() && box == if written then PM.Write(old(box)) else PM.WriteFail(old(box))
      ensures out == old(out)[1..]
      ensures conn.socket == if written then old(conn.socket) + [old(out)[0]] else old(conn.socket)
    {
      if written {
        conn.socket := conn.socket + [out[0]];
        box := PM.Write(box);
      } else {
        box := PM.WriteFail(box);
      }
      out := out[1..];
    }

    /** Takes the close request from its channel. */
    method TakeReason() returns (reason: string)
      requires Valid() && conn.closing != [] && box.writer.Running?
      modifies this`box, conn`closing
      ensures Valid() && box == PM.TakeClose(old(box)) && box.writer == PM.Flushing(reason)
      ensures reason == old(conn.closing)[0] && conn.closing == old(conn.closing)[1..]
    {
      reason := conn.closing[0];
      conn.closing := conn.closing[1..];
      box := PM.TakeClose(box);
    }

    /** `flushAndClose`: writes what is queued, then the close frame. Returns how far the schedule
        went. */
    method FlushAndClose(reason: string, es: seq<Event>, start: nat, ghost began: PM.Outbox) returns (i: nat)
      requires Valid() && start <= |es|
      requires box == ReactAll(cfg, began, es[..start]) && box.writer == PM.Flushing(reason)
      modifies this, conn
      ensures Valid() && start <= i <= |es| && box == ReactAll(cfg, began, es[..i])
      ensures i == |es| || PM.WriterDone(box)
      ensures conn.closedWith.Some? ==> conn.closedWith == Some(reason) && out == []
      ensures TakeFrame(false) !in es[start..] ==> old(conn.socket) + old(out) <= conn.socket + out
      ensures TakeFrame(false) !in es[start..] && Turns(es[start..]) > |old(out)| + Pushes(es[start..]) ==>
                conn.closedWith == Some(reason)
    {
      hide PM.Send, PM.Close, Turns, Pushes;
      ghost var was := box;
      i := start;
      while i < |es|
        invariant Valid() && start <= i <= |es| && box == ReactAll(cfg, began, es[..i])
        invariant box.writer == PM.Flushing(reason)
      {
        var e := es[i];
        ReactAllNext(cfg, began, es, i);
        i := i + 1;
        if e.Pushed? || e.Asked? {
          DisturbKeepsWriter(box, e);
          Disturb(e);
        } else if out != [] {
          WriteOne(e != TakeFrame(false));
          if e == TakeFrame(false) {
            break;
          }
        } else {
          conn.closedWith := Some(reason);
          box := PM.FlushEnd(box);
          break;
        }
      }
      if TakeFrame(false) !in es[start..] {
        FlushedAll(was, began, es, start, i);
      }
    }

    /** What a flush without a failed write comes to. */
    lemma FlushedAll(was: PM.Outbox, began: PM.Outbox, es: seq<Event>, start: nat, i: nat)
      requires start <= i <= |es| && TakeFrame(false) !in es[start..] && was.writer.Flushing?
      requires was == ReactAll(cfg, began, es[..start]) && box == ReactAll(cfg, began, es[..i])
      requires i == |es| || PM.WriterDone(box)
      ensures was.written + was.queue <= box.written + box.queue
      ensures Turns(es[start..]) > |was.queue| + Pushes(es[start..]) ==> box.writer == PM.Closed(was.writer.reason)
    {
      hide ReactAll, Turns, Pushes;
      assert es[..i] == es[..start] + es[start..i];
      ReactAllConcat(cfg, began, es[..start], es[start..i]);
      SliceLacks(es, start, i, TakeFrame(false));
      FlushTurns(cfg, was, es[start..i]);
      assert i == |es| ==> es[start..i] == es[start..];
    }

    lemma DisturbKeepsWriter(b: PM.Outbox, e: Event)
      requires e.Pushed? || e.Asked?
      ensures React(cfg, b, e).writer == b.writer
    {
    }

    /** `writeLoop`, under a schedule of its turns and of what other goroutines do meanwhile. */
    method WriteLoop(es: seq<Event>) returns (i: nat)
      requires Valid() && box.writer.Running?
      modifies this, conn
      ensures Valid() && i <= |es| && box == ReactAll(cfg, old(box), es[..i])
      ensures i == |es| || PM.WriterDone(box)
      ensures PM.OutboxOk(cfg, old(box)) ==> PM.OutboxOk(cfg, box)
      ensures PM.OutboxOk(cfg, old(box)) && conn.closedWith.Some? ==> box.mark <= |box.offered| && AcceptedOnWire()
      ensures (forall e | e in es :: Smooth(e)) ==>
                i == |es| && conn.closedWith.None?
                && Carried(old(out), old(conn.socket), conn.socket, out, Takes(es), Undisturbed(es))
      ensures HeedsClose(old(box), es, box) && HeedsEnd(es, box)
    {
      hide PM.OutboxOk, PM.Send, PM.Close, AcceptedOnWire, Carried, Undisturbed, Smooth, HeedsClose, HeedsEnd;
      hide SmoothTo, Takes, Turns, Pushes, Min;
      ghost var began := box;
      i := 0;
      while i < |es|
        invariant Valid() && i <= |es| && box == ReactAll(cfg, began, es[..i])
        invariant box.writer.Running?
      {
        var e := es[i];
        ReactAllNext(cfg, began, es, i);
        i := i + 1;
        if e.Pushed? || e.Asked? {
          DisturbKeepsWriter(box, e);
          Disturb(e);
        } else if e.TakeFrame? {
          if out != [] {
            WriteOne(e.written);
            if !e.written {
              break;
            }
          }
        } else if e.TakeClose? {
          if conn.closing != [] {
            var reason := TakeReason();
            i := FlushAndClose(reason, es, i, began);
            break;
          }
        } else if e != Ping(true) {
          box := PM.StopWriter(box);
          break;
        }
      }
      WhatTheLoopDoes(began, es, i);
    }

    lemma WhatTheLoopDoes(began: PM.Outbox, es: seq<Event>, i: nat)
      requires Valid() && began.writer.Running?
      requires i <= |es| && box == ReactAll(cfg, began, es[..i]) && (i == |es| || PM.WriterDone(box))
      ensures PM.OutboxOk(cfg, began) ==> PM.OutboxOk(cfg, box)
      ensures PM.OutboxOk(cfg, began) && conn.closedWith.Some? ==> box.mark <= |box.offered| && AcceptedOnWire()
      ensures (forall e | e in es :: Smooth(e)) ==>
                i == |es| && conn.closedWith.None?
                && Carried(began.queue, began.written, conn.socket, out, Takes(es), Undisturbed(es))
      ensures HeedsClose(began, es, box) && HeedsEnd(es, box)
    {
      hide PM.OutboxOk, AcceptedOnWire, Carried, HeedsClose, HeedsEnd, ReactAll;
      LoopHeeds(cfg, began, es, i);
      if PM.OutboxOk(cfg, began) {
        WhatTheLoopKeeps(began, es[..i]);
      }
      if forall e | e in es :: Smooth(e) {
        WhatTurnsAchieve(began, es, i);
      }
    }

    lemma WhatTurnsAchieve(began: PM.Outbox, es: seq<Event>, i: nat)
      requires Valid() && began.writer.Running? && forall e | e in es :: Smooth(e)
      requires i <= |es| && box == ReactAll(cfg, began, es[..i]) && (i == |es| || PM.WriterDone(box))
      ensures i == |es| && conn.closedWith.None?
      ensures Carried(began.queue, began.written, conn.socket, out, Takes(es), Undisturbed(es))
    {
      SmoothTurns(cfg, began, es[..i]);
      assert es[..|es|] == es;
    }

    /** What the loop promises the state machine. */
    lemma WhatTheLoopKeeps(began: PM.Outbox, es: seq<Event>)
      requires Valid() && box == ReactAll(cfg, began, es) && PM.OutboxOk(cfg, began)
      ensures PM.OutboxOk(cfg, box)
      ensures conn.closedWith.Some? ==> box.mark <= |box.offered| && AcceptedOnWire()
    {
      ReactAllKeepsOutbox(cfg, began, es);
      if conn.closedWith.Some? {
        Flushed();
      }
    }

    /** Every frame accepted before the close request is on the wire, at its place in the accepted order. */
    ghost predicate AcceptedOnWire()
      reads this, conn
    {
      forall j | 0 <= j < box.mark && j < |box.offered| && box.offered[j].accepted ::
        |PM.Accepted(box.offered[..j])| < |conn.socket|
        && conn.socket[|PM.Accepted(box.offered[..j])|] == box.offered[j].frame
    }

    lemma Flushed()
      requires Valid() && PM.OutboxOk(cfg, box) && box.writer.Closed?
      ensures box.mark <= |box.offered| && AcceptedOnWire()
    {
      forall j | 0 <= j < box.mark && j < |box.offered| && box.offered[j].accepted
        ensures |PM.Accepted(box.offered[..j])| < |conn.socket|
                && conn.socket[|PM.Accepted(box.offered[..j])|] == box.offered[j].frame
      {
        PM.FlushedAt(cfg, box, j);
      }
    }
  }
}
