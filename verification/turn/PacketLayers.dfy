/** The layers between the UDP socket and the TURN server: the request logger, the binding
    filter around it, and the credential rewriter outermost. */
module PacketLayers {

  import opened Octets
  import opened Stun
  import opened AnyAuth
  import opened Forgery
  import opened Addresses
  import opened Attempts

  // ----- Packet streams -----

  /** One outcome of a read. */
  datatype Event = Packet(data: seq<byte>, addr: string) | Failure

  /** A datagram as far as it fits a buffer. */
  function Cut(e: Event, capacity: nat): Event
  {
    if e.Packet? && |e.data| > capacity then e.(data := e.data[..capacity]) else e
  }

  /** What the next read into a buffer of that size gives; a stream that has run out fails. */
  function Head(pending: seq<Event>, capacity: nat): Event
  {
    if pending == [] then Failure else Cut(pending[0], capacity)
  }

  function Rest(pending: seq<Event>): seq<Event>
  {
    if pending == [] then [] else pending[1..]
  }

  predicate IsRequest(e: Event)
  {
    e.Packet? && IsBindingRequest(e.data)
  }

  /** The events of a stream that are not binding requests, in order. */
  function WithoutRequests(events: seq<Event>): seq<Event>
  {
    if events == [] then []
    else
      var init, last := events[..|events| - 1], events[|events| - 1];
      WithoutRequests(init) + if IsRequest(last) then [] else [last]
  }

  /** Where the binding requests of a stream came from, in order. */
  function RequestSources(events: seq<Event>): seq<string>
  {
    if events == [] then []
    else
      var init, last := events[..|events| - 1], events[|events| - 1];
      RequestSources(init) + if IsRequest(last) then [last.addr] else []
  }

  function ForgedEvent(crypto: Crypto, realm: seq<byte>, e: Event): Event
  {
    if e.Packet? then e.(data := Forged(crypto, realm, e.data)) else e
  }

  /** A stream with every packet rewritten. */
  function ForgedEvents(crypto: Crypto, realm: seq<byte>, events: seq<Event>): (forged: seq<Event>)
    ensures |forged| == |events|
  {
    seq(|events|, i requires 0 <= i < |events| => ForgedEvent(crypto, realm, events[i]))
  }

  /** `now` is the event `was` as it comes out of the rewriter. */
  ghost predicate ComesOut(crypto: Crypto, realm: seq<byte>, was: Event, now: Event)
  {
    if was.Failure? then now.Failure?
    else now.Packet? && now.addr == was.addr && Admissible(crypto, realm, was.data, now.data)
  }

  lemma ForgedComesOut(crypto: Crypto, realm: seq<byte>, e: Event)
    ensures ComesOut(crypto, realm, e, ForgedEvent(crypto, realm, e))
  {
    if e.Packet? {
      ForgedIsAdmissible(crypto, realm, e.data);
    }
  }

  lemma AppendEvent(events: seq<Event>, e: Event)
    ensures WithoutRequests(events + [e])
         == if IsRequest(e) then WithoutRequests(events) else WithoutRequests(events) + [e]
    ensures RequestSources(events + [e])
         == if IsRequest(e) then RequestSources(events) + [e.addr] else RequestSources(events)
  {
    var all := events + [e];
    assert all[..|all| - 1] == events;
  }

  lemma AppendForged(crypto: Crypto, realm: seq<byte>, events: seq<Event>, e: Event)
    ensures ForgedEvents(crypto, realm, events + [e])
         == ForgedEvents(crypto, realm, events) + [ForgedEvent(crypto, realm, e)]
  {
  }

  /** A rewrite leaves a binding request a binding request, and turns nothing into one. */
  lemma ForgedKeepsKind(crypto: Crypto, realm: seq<byte>, e: Event)
    ensures IsRequest(ForgedEvent(crypto, realm, e)) == IsRequest(e)
  {
    if e.Packet? {
      var forged := Forged(crypto, realm, e.data);
      ForgedFrame(crypto, realm, e.data);
      if |e.data| >= HEADER_LENGTH {
        assert forged[..HEADER_LENGTH] == e.data[..HEADER_LENGTH];
        MessageTypeOfPrefix(e.data, HEADER_LENGTH);
        MessageTypeOfPrefix(forged, HEADER_LENGTH);
      }
    }
  }

  lemma EachComesOut(crypto: Crypto, realm: seq<byte>, events: seq<Event>)
    ensures forall i | 0 <= i < |events| :: ComesOut(crypto, realm, events[i], ForgedEvents(crypto, realm, events)[i])
  {
    hide ComesOut, ForgedEvent;
    forall i | 0 <= i < |events| ensures ComesOut(crypto, realm, events[i], ForgedEvents(crypto, realm, events)[i]) {
      ForgedComesOut(crypto, realm, events[i]);
    }
  }

  /** On any stream, filtering and rewriting give the same result in either order, and the
      logger sees the same requests. */
  lemma {:induction false} FilterCommutesWithForging(crypto: Crypto, realm: seq<byte>, events: seq<Event>)
    ensures WithoutRequests(ForgedEvents(crypto, realm, events))
         == ForgedEvents(crypto, realm, WithoutRequests(events))
    ensures RequestSources(ForgedEvents(crypto, realm, events)) == RequestSources(events)
    ensures forall i | 0 <= i < |events| :: ComesOut(crypto, realm, events[i], ForgedEvents(crypto, realm, events)[i])
  {
    hide ComesOut;
    EachComesOut(crypto, realm, events);
    if events != [] {
      var init, last := events[..|events| - 1], events[|events| - 1];
      assert events == init + [last];
      FilterCommutesWithForging(crypto, realm, init);
      ForgedKeepsKind(crypto, realm, last);
      AppendForged(crypto, realm, init, last);
      AppendEvent(ForgedEvents(crypto, realm, init), ForgedEvent(crypto, realm, last));
      AppendForged(crypto, realm, WithoutRequests(init), last);
      assert WithoutRequests(init) + [] == WithoutRequests(init);
    }
  }

  /** The filter drops the binding requests and only them: what it delivers is free of them,
      what it delivers and the requests make up the stream, and each other event is delivered. */
  lemma {:induction false} FilterIsExact(events: seq<Event>)
    ensures forall e | e in WithoutRequests(events) :: !IsRequest(e)
    ensures |WithoutRequests(events)| + |RequestSources(events)| == |events|
    ensures forall e | !IsRequest(e) :: multiset(WithoutRequests(events))[e] == multiset(events)[e]
  {
    if events != [] {
      FilterIsExact(events[..|events| - 1]);
      assert events == events[..|events| - 1] + [events[|events| - 1]];
    }
  }

  // ----- The socket -----

  class Socket {
    /** What the socket will yield, oldest first; after that it is closed. */
    var pending: seq<Event>
    /** What has been read so far, as far as it fitted the reader's buffer. */
    ghost var taken: seq<Event>
    var written: seq<(seq<byte>, string)>

    constructor (arrivals: seq<Event>)
      ensures pending == arrivals && taken == [] && written == []
    {
      pending, taken, written := arrivals, [], [];
    }

    method ReadFrom(p: array<byte>) returns (n: nat, addr: string, ok: bool)
      modifies this`pending, this`taken, p
      ensures n <= p.Length
      ensures Head(old(pending), p.Length) == if ok then Packet(p[..n], addr) else Failure
      ensures taken == old(taken) + [Head(old(pending), p.Length)] && pending == Rest(old(pending))
      ensures ok <==> old(pending) != [] && old(pending[0]).Packet?
      ensures ok ==>
                && n == (if |old(pending[0]).data| < p.Length then |old(pending[0]).data| else p.Length)
                && p[..n] == old(pending[0]).data[..n] && addr == old(pending[0]).addr
      ensures old(pending) != [] ==> pending == old(pending)[1..]
    {
      n, addr, ok := 0, "", false;
      if pending == [] {
        taken := taken + [Failure];
        return;
      }
      var e := pending[0];
      pending := pending[1..];
      taken := taken + [Cut(e, p.Length)];
      if e.Packet? {
        n := if |e.data| <= p.Length then |e.data| else p.Length;
        for i := 0 to n
          invariant p[..i] == e.data[..i]
          modifies p
        {
          p[i] := e.data[i];
        }
        addr, ok := e.addr, true;
      }
    }

    /** `accepts` is whether the operating system takes the packet. */
    method WriteTo(p: seq<byte>, addr: string, accepts: bool) returns (ok: bool)
      modifies this`written
      ensures ok == accepts
      ensures written == if accepts then old(written) + [(p, addr)] else old(written)
    {
      if accepts {
        written := written + [(p, addr)];
      }
      return accepts;
    }
  }

  // ----- The logger -----

  datatype Level = Debug | Info | Warn

  datatype Line =
    | Request(level: Level, addr: string, attempt: nat)
    | Success(level: Level, addr: string, mapped: Address, attempts: nat)
    | ErrorResponse(level: Level, addr: string, attempts: nat)
    | SendFailed(level: Level, addr: string)

  /** The line for a request that is its source's `attempt`-th. */
  function RequestLine(addr: string, attempt: nat): Line
  {
    Request(if attempt == 1 then Info else Debug, addr, attempt)
  }

  /** The log after a read. */
  function Logged(log: seq<Line>, e: Event, table: map<string, nat>): seq<Line>
  {
    if IsRequest(e) then log + [RequestLine(e.addr, Attempt(table, e.addr))] else log
  }

  lemma TallyEvent(events: seq<Event>, e: Event)
    ensures var table := Tally(RequestSources(events));
      Tally(RequestSources(events + [e])) == if IsRequest(e) then Counted(table, e.addr) else table
  {
    AppendEvent(events, e);
    if IsRequest(e) {
      var calls := RequestSources(events);
      assert (calls + [e.addr])[..|calls|] == calls;
    }
  }

  class StunLogConn {
    const socket: Socket
    var attempts: map<string, nat>
    var log: seq<Line>

    /** The table is what the binding requests read so far add up to. */
    ghost predicate Valid()
      reads this, socket
    {
      attempts == Tally(RequestSources(socket.taken))
    }

    constructor (socket: Socket)
      requires socket.taken == []
      ensures this.socket == socket && attempts == map[] && log == [] && Valid()
    {
      this.socket := socket;
      attempts, log := map[], [];
    }

    method Count(key: string) returns (n: nat)
      modifies this`attempts
      ensures n == Attempt(old(attempts), key)
      ensures attempts == Counted(old(attempts), key)
    {
      if |attempts| >= MAX_TRACKED_SOURCES {
        if key !in attempts {
          return 1;
        }
      }
      attempts := attempts[key := (if key in attempts then attempts[key] else 0) + 1];
      return attempts[key];
    }

    method ReadFrom(p: array<byte>) returns (n: nat, addr: string, ok: bool)
      requires Valid()
      modifies this, socket`pending, socket`taken, p
      ensures Valid() && n <= p.Length
      ensures Head(old(socket.pending), p.Length) == if ok then Packet(p[..n], addr) else Failure
      ensures socket.taken == old(socket.taken) + [Head(old(socket.pending), p.Length)]
      ensures socket.pending == Rest(old(socket.pending))
      ensures log == Logged(old(log), Head(old(socket.pending), p.Length), old(attempts))
      ensures !ok || !IsBindingRequest(p[..n]) ==> log == old(log)
      ensures ok && IsBindingRequest(p[..n]) ==>
                && |log| == |old(log)| + 1 && log[..|old(log)|] == old(log)
                && var line := log[|old(log)|];
                && line.Request? && line.addr == addr && line.attempt == Attempt(old(attempts), addr)
                && line.level == if line.attempt == 1 then Info else Debug
    {
      n, addr, ok := socket.ReadFrom(p);
      TallyEvent(old(socket.taken), if ok then Packet(p[..n], addr) else Failure);
      if !ok || !IsBindingRequest(p[..n]) {
        return;
      }
      var attempt := Count(addr);
      LogRequest(addr, attempt);
    }

    method LogRequest(addr: string, attempt: nat)
      modifies this`log
      ensures log == old(log) + [RequestLine(addr, attempt)]
    {
      if attempt == 1 {
        log := log + [Request(Info, addr, attempt)];
      } else {
        log := log + [Request(Debug, addr, attempt)];
      }
    }

    /** Passes the packet on, and logs it if it answers a binding request: a success with the
        first address it carries. */
    method WriteTo(p: seq<byte>, addr: string, accepts: bool) returns (ok: bool)
      requires Valid()
      modifies this`log, socket`written
      ensures Valid() && ok == accepts
      ensures socket.written == if accepts then old(socket.written) + [(p, addr)] else old(socket.written)
      ensures !IsBindingResponse(p).0 ==> log == old(log)
      ensures IsBindingResponse(p).0 ==> |log| == |old(log)| + 1 && log[..|old(log)|] == old(log)
      ensures IsBindingResponse(p).0 ==> ReportsResponse(log[|log| - 1], p, addr, accepts, attempts)
    {
      var (response, success) := IsBindingResponse(p);
      ok := socket.WriteTo(p, addr, accepts);
      if !response {
        return;
      }
      if !ok {
        log := log + [SendFailed(Warn, addr)];
      } else if success {
        var mapped := MappedAddress(p);
        log := log + [Success(Info, addr, mapped, AttemptsFor(attempts, addr))];
      } else {
        log := log + [ErrorResponse(Info, addr, AttemptsFor(attempts, addr))];
      }
    }
  }

  ghost predicate ReportsResponse(line: Line, p: seq<byte>, addr: string, accepts: bool, table: map<string, nat>)
    requires IsBindingResponse(p).0
  {
    if !accepts then line == SendFailed(Warn, addr)
    else if IsBindingResponse(p).1 then
      && line.Success? && line.level == Info && line.addr == addr
      && line.attempts == AttemptsFor(table, addr)
      && IsFirst(line.mapped, Attributes(p), p)
    else line == ErrorResponse(Info, addr, AttemptsFor(table, addr))
  }

  // ----- The filter -----

  class StunFilterConn {
    const inner: StunLogConn
    var dropped: nat
    /** What the reads so far returned. */
    ghost var delivered: seq<Event>

    /** Everything taken from the socket was either delivered, in order, or was a binding
        request and counted. */
    ghost predicate Valid()
      reads this, inner, inner.socket
    {
      && inner.Valid()
      && delivered == WithoutRequests(inner.socket.taken)
      && dropped == |RequestSources(inner.socket.taken)|
    }

    constructor (inner: StunLogConn)
      requires inner.Valid() && inner.socket.taken == []
      ensures this.inner == inner && dropped == 0 && delivered == [] && Valid()
    {
      this.inner := inner;
      dropped, delivered := 0, [];
    }

    method ReadFrom(p: array<byte>) returns (n: nat, addr: string, ok: bool)
      requires Valid()
      modifies this, inner, inner.socket`pending, inner.socket`taken, p
      ensures Valid() && n <= p.Length
      ensures delivered == old(delivered) + [if ok then Packet(p[..n], addr) else Failure]
      ensures old(inner.socket.taken) < inner.socket.taken
      ensures inner.socket.taken[|inner.socket.taken| - 1] == delivered[|delivered| - 1]
    {
      while true
        invariant Valid() && delivered == old(delivered)
        invariant old(inner.socket.taken) <= inner.socket.taken
        decreases |inner.socket.pending|
      {
        ghost var before := inner.socket.taken;
        n, addr, ok := inner.ReadFrom(p);
        AppendEvent(before, if ok then Packet(p[..n], addr) else Failure);
        if !ok {
          delivered := delivered + [Failure];
          return;
        }
        if !IsBindingRequest(p[..n]) {
          delivered := delivered + [Packet(p[..n], addr)];
          return;
        }
        dropped := dropped + 1;
      }
    }
  }

  // ----- The rewriter -----

  class AnyCredentialConn {
    const inner: StunFilterConn
    const crypto: Crypto
    const realm: seq<byte>
    /** What the reads so far returned. */
    ghost var read: seq<Event>

    ghost predicate Valid()
      reads this, inner, inner.inner, inner.inner.socket
    {
      && inner.Valid()
      && read == ForgedEvents(crypto, realm, inner.delivered)
    }

    constructor (inner: StunFilterConn, crypto: Crypto, realm: seq<byte>)
      requires inner.Valid() && inner.delivered == []
      ensures this.inner == inner && this.crypto == crypto && this.realm == realm && read == [] && Valid()
    {
      this.inner, this.crypto, this.realm := inner, crypto, realm;
      read := [];
    }

    method ReadFrom(p: array<byte>) returns (n: nat, addr: string, ok: bool)
      requires Valid()
      modifies this, inner, inner.inner, inner.inner.socket`pending, inner.inner.socket`taken, p
      ensures Valid() && n <= p.Length
      ensures read == old(read) + [if ok then Packet(p[..n], addr) else Failure]
      ensures |inner.delivered| == |old(inner.delivered)| + 1
      ensures ComesOut(crypto, realm, inner.delivered[|inner.delivered| - 1],
                       if ok then Packet(p[..n], addr) else Failure)
    {
      hide Admissible;
      n, addr, ok := inner.ReadFrom(p);
      ForgedComesOut(crypto, realm, if ok then Packet(p[..n], addr) else Failure);
      AppendForged(crypto, realm, old(inner.delivered), if ok then Packet(p[..n], addr) else Failure);
      if !ok {
        read := read + [Failure];
        return;
      }
      var rewritten := ForgeIntegrity(crypto, realm, p, n);
      read := read + [Packet(p[..n], addr)];
    }

    /** Over any number of reads, the TURN server has been given the packets of the socket that
        are not binding requests, in order and with any credential made to verify, which is
        also what rewriting everything before filtering would have given; every other packet
        was counted as dropped, and is in the attempt table under its source. */
    lemma ReadHistory()
      requires Valid()
      ensures var taken := inner.inner.socket.taken;
        && read == WithoutRequests(ForgedEvents(crypto, realm, taken))
        && |read| == |WithoutRequests(taken)|
        && (forall i | 0 <= i < |read| :: ComesOut(crypto, realm, WithoutRequests(taken)[i], read[i]))
        && |read| + inner.dropped == |taken|
        && inner.dropped == Total(inner.inner.attempts) + Untracked(RequestSources(taken))
        && |inner.inner.attempts| <= 1024
    {
      var taken := inner.inner.socket.taken;
      FilterCommutesWithForging(crypto, realm, taken);
      FilterIsExact(taken);
      CallsAreConserved(RequestSources(taken));
      TallyIsExact(RequestSources(taken));
      EachComesOut(crypto, realm, WithoutRequests(taken));
    }
  }
}
