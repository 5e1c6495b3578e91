/** STUN messages: the fixed header, the attribute walk, and an encoder it is held against. */
module Stun {

  import opened Octets

  const HEADER_LENGTH := 20
  const MAGIC_COOKIE := 0x2112A442

  const BINDING_REQUEST: uint16 := 0x0001
  const BINDING_SUCCESS: uint16 := 0x0101
  const BINDING_ERROR: uint16 := 0x0111

  const MAPPED_ADDRESS: uint16 := 0x0001
  const USERNAME: uint16 := 0x0006
  const MESSAGE_INTEGRITY: uint16 := 0x0008
  const REALM: uint16 := 0x0014
  const XOR_MAPPED_ADDRESS: uint16 := 0x0020

  /** The message type, and whether the packet is a STUN message at all. */
  function MessageType(b: seq<byte>): (uint16, bool)
  {
    if |b| < HEADER_LENGTH then (0, false)
    else if U16(b, 4) * 65536 + U16(b, 6) != MAGIC_COOKIE then (0, false)
    else (U16(b, 0), true)
  }

  predicate IsBindingRequest(b: seq<byte>)
  {
    var (kind, ok) := MessageType(b);
    ok && kind == BINDING_REQUEST
  }

  /** Two answers: is it a response to a binding request, and is it the success response. */
  function IsBindingResponse(b: seq<byte>): (bool, bool)
  {
    var (kind, ok) := MessageType(b);
    if !ok then (false, false)
    else (kind == BINDING_SUCCESS || kind == BINDING_ERROR, kind == BINDING_SUCCESS)
  }

  /** The six octets that make a packet a binding request. */
  lemma BindingRequestOctets(b: seq<byte>)
    ensures IsBindingRequest(b) <==>
            (|b| >= 20 && b[..2] == [0, 1] && b[4..8] == [0x21, 0x12, 0xA4, 0x42])
  {
    if |b| >= 20 {
      assert b[..2] == [b[0], b[1]];
      assert b[4..8] == [b[4], b[5], b[6], b[7]];
    }
  }

  /** The eight octets that make a packet the answer to a binding request, and a success. */
  lemma BindingResponseOctets(b: seq<byte>)
    ensures var (response, success) := IsBindingResponse(b);
      && (response <==> |b| >= 20 && b[4..8] == [0x21, 0x12, 0xA4, 0x42] && (b[..2] == [1, 1] || b[..2] == [1, 0x11]))
      && (success <==> |b| >= 20 && b[4..8] == [0x21, 0x12, 0xA4, 0x42] && b[..2] == [1, 1])
  {
    if |b| >= 20 {
      assert b[..2] == [b[0], b[1]];
      assert b[4..8] == [b[4], b[5], b[6], b[7]];
    }
  }

  /** Cutting a packet short, down to its header, does not change what it is. */
  lemma MessageTypeOfPrefix(b: seq<byte>, n: nat)
    requires HEADER_LENGTH <= n <= |b|
    ensures MessageType(b[..n]) == MessageType(b)
  {
  }

  // ----- The attribute walk -----

  datatype Attribute = Attribute(kind: uint16, offset: nat, value: seq<byte>)
  {
    /** Where the value ends, before any padding. */
    function Finish(): nat { offset + 4 + |value| }

    /** Where the walk looks for the attribute after this one. */
    function Next(): nat { offset + Advance(|value|) }
  }

  /** The octets that bring a value to a multiple of four. */
  function Padding(length: nat): (n: nat)
    ensures n < 4 && (length + n) % 4 == 0
  {
    if length % 4 != 0 then 4 - length % 4 else 0
  }

  function Advance(length: nat): nat
  {
    4 + length + Padding(length)
  }

  /** Where the attributes end: at the header's length, or where the message was cut. */
  function End(msg: seq<byte>): (end: nat)
    requires |msg| >= HEADER_LENGTH
    ensures HEADER_LENGTH <= end <= |msg|
  {
    var n := HEADER_LENGTH + U16(msg, 2);
    if n <= |msg| then n else |msg|
  }

  /** A whole attribute lies between `offset` and `end`. */
  predicate Fits(msg: seq<byte>, offset: nat, end: nat)
    requires end <= |msg|
  {
    offset + 4 <= end && offset + 4 + U16(msg, offset + 2) <= end
  }

  function AttributeAt(msg: seq<byte>, offset: nat, end: nat): (a: Attribute)
    requires end <= |msg| && Fits(msg, offset, end)
    ensures a.Finish() <= end
  {
    Attribute(U16(msg, offset), offset, msg[offset + 4..offset + 4 + U16(msg, offset + 2)])
  }

  function Walk(msg: seq<byte>, offset: nat, end: nat): seq<Attribute>
    requires end <= |msg|
    decreases end - offset
  {
    if !Fits(msg, offset, end) then []
    else
      var a := AttributeAt(msg, offset, end);
      [a] + Walk(msg, a.Next(), end)
  }

  function Attributes(msg: seq<byte>): seq<Attribute>
  {
    if |msg| < HEADER_LENGTH then [] else Walk(msg, HEADER_LENGTH, End(msg))
  }

  /** What a callback that may stop the walk leaves in the variables it captured. */
  function Fold<S>(fn: (S, Attribute) -> (S, bool), s: S, attrs: seq<Attribute>): S
  {
    if attrs == [] then s
    else
      var (t, more) := fn(s, attrs[0]);
      if more then Fold(fn, t, attrs[1..]) else t
  }

  lemma FoldWalk<S>(fn: (S, Attribute) -> (S, bool), s: S, msg: seq<byte>, offset: nat, end: nat)
    requires end <= |msg| && Fits(msg, offset, end)
    ensures var a := AttributeAt(msg, offset, end); var (t, more) := fn(s, a);
      Fold(fn, s, Walk(msg, offset, end)) == if more then Fold(fn, t, Walk(msg, a.Next(), end)) else t
  {
    var a := AttributeAt(msg, offset, end);
    assert ([a] + Walk(msg, a.Next(), end))[1..] == Walk(msg, a.Next(), end);
  }

  /** Calls `fn` on the attributes in turn until it returns false or the message runs out.
      `s` stands for the variables the callback captures. */
  method ForEachAttribute<S>(msg: seq<byte>, fn: (S, Attribute) -> (S, bool), init: S) returns (s: S)
    ensures s == Fold(fn, init, Attributes(msg))
  {
    s := init;
    if |msg| < HEADER_LENGTH {
      return;
    }
    var end := |msg|;
    var n := HEADER_LENGTH + U16(msg, 2);
    if n <= end {
      end := n;
    }
    assert Attributes(msg) == Walk(msg, HEADER_LENGTH, end);

    var offset: nat := HEADER_LENGTH;
    var more := true;
    while more && offset + 4 <= end
      invariant if more then Fold(fn, init, Walk(msg, HEADER_LENGTH, end)) == Fold(fn, s, Walk(msg, offset, end))
                else Fold(fn, init, Walk(msg, HEADER_LENGTH, end)) == s
      decreases more, end - offset
    {
      s, offset, more := Visit(msg, fn, s, offset, end);
    }
  }

  /** One turn of the walk. It is over if the attribute does not fit or `fn` returns false. */
  method Visit<S>(msg: seq<byte>, fn: (S, Attribute) -> (S, bool), s: S, offset: nat, end: nat)
    returns (t: S, next: nat, more: bool)
    requires offset + 4 <= end <= |msg|
    ensures more ==> offset < next && Fold(fn, s, Walk(msg, offset, end)) == Fold(fn, t, Walk(msg, next, end))
    ensures !more ==> Fold(fn, s, Walk(msg, offset, end)) == t
  {
    var kind := U16(msg, offset);
    var length: nat := U16(msg, offset + 2);
    if offset + 4 + length > end {
      return s, offset, false;
    }
    FoldWalk(fn, s, msg, offset, end);
    var (u, on) := fn(s, Attribute(kind, offset, msg[offset + 4..offset + 4 + length]));
    t, more := u, on;

    var advance: nat := 4 + length;
    var pad := length % 4;
    if pad != 0 {
      advance := advance + (4 - pad);
    }
    next := offset + advance;
  }

  // ----- What the walk yields -----

  /** Where the walk stopped. */
  function StopOf(attrs: seq<Attribute>, start: nat): nat
  {
    if attrs == [] then start else attrs[|attrs| - 1].Next()
  }

  /** A run of adjacent attributes of `msg` that starts at `start`, stays within `end`, and
      ends only where no further attribute fits. */
  ghost predicate IsWalk(msg: seq<byte>, start: nat, end: nat, attrs: seq<Attribute>)
    requires end <= |msg|
  {
    && (attrs != [] ==> attrs[0].offset == start)
    && (forall i | 0 <= i < |attrs| :: Reads(msg, end, attrs[i]))
    && (forall i | 0 < i < |attrs| :: attrs[i].offset == attrs[i - 1].Next())
    && !Fits(msg, StopOf(attrs, start), end)
  }

  /** `a` is what `msg` holds at `a.offset`, and it lies within `end`. */
  predicate Reads(msg: seq<byte>, end: nat, a: Attribute)
    requires end <= |msg|
  {
    && a.Finish() <= end
    && a.kind == U16(msg, a.offset)
    && |a.value| == U16(msg, a.offset + 2)
    && a.value == msg[a.offset + 4..a.Finish()]
  }

  /** The walk is the one list with that description: it yields such a list, and no other
      list fits the description. */
  lemma WalkIsTheWalk(msg: seq<byte>, start: nat, end: nat, attrs: seq<Attribute>)
    requires end <= |msg|
    ensures attrs == Walk(msg, start, end) <==> IsWalk(msg, start, end, attrs)
  {
    WalkIsWalk(msg, start, end);
    if IsWalk(msg, start, end, attrs) {
      OnlyWalk(msg, start, end, attrs);
    }
  }

  lemma {:induction false} WalkIsWalk(msg: seq<byte>, start: nat, end: nat)
    requires end <= |msg|
    ensures IsWalk(msg, start, end, Walk(msg, start, end))
    decreases end - start
  {
    if Fits(msg, start, end) {
      var a := AttributeAt(msg, start, end);
      WalkIsWalk(msg, a.Next(), end);
      AddFirst(msg, end, [a] + Walk(msg, a.Next(), end));
    }
  }

  lemma {:induction false} OnlyWalk(msg: seq<byte>, start: nat, end: nat, attrs: seq<Attribute>)
    requires end <= |msg| && IsWalk(msg, start, end, attrs)
    ensures attrs == Walk(msg, start, end)
    decreases |attrs|
  {
    if attrs != [] {
      assert Reads(msg, end, attrs[0]);
      DropFirst(msg, start, end, attrs);
      OnlyWalk(msg, attrs[0].Next(), end, attrs[1..]);
      WalkReads(msg, end, attrs[0]);
      assert attrs == [attrs[0]] + attrs[1..];
    }
  }

  lemma WalkReads(msg: seq<byte>, end: nat, a: Attribute)
    requires end <= |msg| && Reads(msg, end, a)
    ensures Walk(msg, a.offset, end) == [a] + Walk(msg, a.Next(), end)
  {
    assert AttributeAt(msg, a.offset, end) == a;
  }

  lemma AddFirst(msg: seq<byte>, end: nat, attrs: seq<Attribute>)
    requires end <= |msg| && attrs != [] && Reads(msg, end, attrs[0])
    requires IsWalk(msg, attrs[0].Next(), end, attrs[1..])
    ensures IsWalk(msg, attrs[0].offset, end, attrs)
  {
    var rest := attrs[1..];
    assert forall i | 0 < i < |attrs| :: attrs[i] == rest[i - 1];
    forall i | 0 < i < |attrs|
      ensures Reads(msg, end, attrs[i]) && attrs[i].offset == attrs[i - 1].Next()
    {
      assert Reads(msg, end, rest[i - 1]);
      if i > 1 {
        assert rest[i - 1].offset == rest[i - 2].Next();
      }
    }
  }

  lemma DropFirst(msg: seq<byte>, start: nat, end: nat, attrs: seq<Attribute>)
    requires end <= |msg| && attrs != [] && IsWalk(msg, start, end, attrs)
    ensures IsWalk(msg, attrs[0].Next(), end, attrs[1..])
  {
    var rest := attrs[1..];
    forall i | 0 <= i < |rest|
      ensures Reads(msg, end, rest[i]) && (i > 0 ==> rest[i].offset == rest[i - 1].Next())
    {
      assert rest[i] == attrs[i + 1];
      assert Reads(msg, end, attrs[i + 1]);
    }
  }

  /** Attributes start on multiples of four, in strictly increasing and disjoint places, and the next one
      starts at the first multiple of four. */
  lemma {:induction false} AttributesAreDisjoint(msg: seq<byte>, i: nat, j: nat)
    requires |msg| >= HEADER_LENGTH
    requires i < j < |Attributes(msg)|
    ensures var attrs := Attributes(msg);
      && HEADER_LENGTH <= attrs[i].offset && attrs[i].Finish() <= attrs[i].Next() <= attrs[j].offset
      && attrs[i].offset % 4 == 0 && attrs[j].offset % 4 == 0
      && attrs[j].Finish() <= End(msg)
      && (j == i + 1 ==> attrs[j].offset < attrs[i].Finish() + 4)
  {
    hide Walk, U16, Padding;
    var attrs := Attributes(msg);
    WalkIsTheWalk(msg, HEADER_LENGTH, End(msg), attrs);
    assert Reads(msg, End(msg), attrs[j]);
    OffsetsAdvance(attrs, HEADER_LENGTH, i);
    OffsetsAdvance(attrs, HEADER_LENGTH, j);
    OffsetsIncrease(attrs, i, j);
  }

  ghost predicate Adjacent(attrs: seq<Attribute>, start: nat)
  {
    && (attrs != [] ==> attrs[0].offset == start)
    && (forall i | 0 < i < |attrs| :: attrs[i].offset == attrs[i - 1].Next())
  }

  lemma {:induction false} OffsetsAdvance(attrs: seq<Attribute>, start: nat, i: nat)
    requires Adjacent(attrs, start) && i < |attrs|
    ensures start <= attrs[i].offset && attrs[i].offset % 4 == start % 4
  {
    if i > 0 {
      OffsetsAdvance(attrs, start, i - 1);
      assert attrs[i].offset == attrs[i - 1].Next();
    }
  }

  lemma {:induction false} OffsetsIncrease(attrs: seq<Attribute>, i: nat, j: nat)
    requires i < j < |attrs|
    requires forall k | 0 < k < |attrs| :: attrs[k].offset == attrs[k - 1].Next()
    ensures attrs[i].Next() <= attrs[j].offset
  {
    assert attrs[j].offset == attrs[j - 1].Next();
    if i < j - 1 {
      OffsetsIncrease(attrs, i, j - 1);
    }
  }

  /** A message cut short yields exactly the attributes that still fit, as a prefix. */
  lemma TruncationYieldsPrefix(msg: seq<byte>, k: nat)
    requires HEADER_LENGTH <= k <= |msg|
    ensures Attributes(msg[..k]) <= Attributes(msg)
    ensures forall i | |Attributes(msg[..k])| <= i < |Attributes(msg)| :: k < Attributes(msg)[i].Finish()
  {
    var end := End(msg);
    assert U16(msg[..k], 2) == U16(msg, 2);
    assert End(msg[..k]) == if end <= k then end else k;
    TruncatedWalk(msg, k, HEADER_LENGTH, end);
  }

  lemma {:induction false} TruncatedWalk(msg: seq<byte>, k: nat, offset: nat, end: nat)
    requires k <= |msg| && end <= |msg|
    ensures var cut := Walk(msg[..k], offset, if end <= k then end else k);
      && cut <= Walk(msg, offset, end)
      && forall i | |cut| <= i < |Walk(msg, offset, end)| :: k < Walk(msg, offset, end)[i].Finish()
    decreases end - offset
  {
    var m := if end <= k then end else k;
    var walk := Walk(msg, offset, end);
    if Fits(msg[..k], offset, m) {
      assert U16(msg[..k], offset + 2) == U16(msg, offset + 2);
      var a := AttributeAt(msg, offset, end);
      assert AttributeAt(msg[..k], offset, m) == a;
      TruncatedWalk(msg, k, a.Next(), end);
    } else if Fits(msg, offset, end) {
      forall i | 0 <= i < |walk|
        ensures k < walk[i].Finish()
      {
        WalkIsTheWalk(msg, offset, end, walk);
        OffsetsAdvance(walk, offset, i);
        if i > 0 {
          OffsetsIncrease(walk, 0, i);
        }
      }
    }
  }

  // ----- An encoder -----

  /** An attribute as a sender lays it out, padded to a multiple of four. The padding octets may have any value. */
  datatype Tlv = Tlv(kind: uint16, value: seq<byte>, padding: seq<byte>)
  {
    predicate Valid()
    {
      |value| < 65536 && |padding| < 4 && (|value| + |padding|) % 4 == 0
    }

    function Encode(): (s: seq<byte>)
      requires Valid()
      ensures |s| == Advance(|value|)
    {
      Bytes16(kind) + Bytes16(|value|) + value + padding
    }
  }

  /** The message type, and the sixteen octets of cookie and transaction id. */
  datatype Header = Header(kind: uint16, rest: seq<byte>)
  {
    predicate Valid()
    {
      |rest| == 16
    }

    function Encode(length: uint16): (s: seq<byte>)
      requires Valid()
      ensures |s| == HEADER_LENGTH
    {
      Bytes16(kind) + Bytes16(length) + rest
    }
  }

  predicate AllValid(tlvs: seq<Tlv>)
  {
    forall i | 0 <= i < |tlvs| :: tlvs[i].Valid()
  }

  function Body(tlvs: seq<Tlv>): seq<byte>
    requires AllValid(tlvs)
  {
    if tlvs == [] then [] else tlvs[0].Encode() + Body(tlvs[1..])
  }

  /** A message whose length field covers all its attributes. */
  predicate Encodable(h: Header, tlvs: seq<Tlv>)
  {
    h.Valid() && AllValid(tlvs) && |Body(tlvs)| <= 65535
  }

  function Encode(h: Header, tlvs: seq<Tlv>): seq<byte>
    requires Encodable(h, tlvs)
  {
    h.Encode(|Body(tlvs)|) + Body(tlvs)
  }

  /** The attributes a receiver should see, laid out from `offset` on. */
  function Placed(tlvs: seq<Tlv>, offset: nat): (attrs: seq<Attribute>)
    ensures |attrs| == |tlvs|
  {
    if tlvs == [] then []
    else
      var a := Attribute(tlvs[0].kind, offset, tlvs[0].value);
      [a] + Placed(tlvs[1..], a.Next())
  }

  lemma PlaceFirst(t: Tlv, rest: seq<Tlv>, offset: nat)
    requires t.Valid() && AllValid(rest)
    ensures AllValid([t] + rest) && Body([t] + rest) == t.Encode() + Body(rest)
    ensures Placed([t] + rest, offset)
         == [Attribute(t.kind, offset, t.value)] + Placed(rest, offset + Advance(|t.value|))
  {
    assert ([t] + rest)[1..] == rest;
  }

  lemma {:induction false} PlacedAt(tlvs: seq<Tlv>, offset: nat)
    ensures forall i | 0 <= i < |tlvs| ::
      Placed(tlvs, offset)[i].kind == tlvs[i].kind && Placed(tlvs, offset)[i].value == tlvs[i].value
  {
    if tlvs != [] {
      PlacedAt(tlvs[1..], offset + Advance(|tlvs[0].value|));
    }
  }

  /** The walk gives back any list of attributes that was encoded, whatever the padding
      holds and whatever follows the message in the packet. */
  lemma WalkInvertsEncode(h: Header, tlvs: seq<Tlv>, trailing: seq<byte>)
    requires Encodable(h, tlvs)
    ensures Attributes(Encode(h, tlvs) + trailing) == Placed(tlvs, HEADER_LENGTH)
  {
    var msg, end := Encode(h, tlvs) + trailing, HEADER_LENGTH + |Body(tlvs)|;
    EncodedExtent(h, tlvs, trailing);
    BodyLaidOut(msg, HEADER_LENGTH, tlvs, end);
    WalkLaidOut(msg, HEADER_LENGTH, tlvs, end);
  }

  lemma EncodedExtent(h: Header, tlvs: seq<Tlv>, trailing: seq<byte>)
    requires Encodable(h, tlvs)
    ensures var msg, end := Encode(h, tlvs) + trailing, HEADER_LENGTH + |Body(tlvs)|;
      |msg| >= HEADER_LENGTH && End(msg) == end && msg[HEADER_LENGTH..end] == Body(tlvs)
  {
    var head, body := h.Encode(|Body(tlvs)|), Body(tlvs);
    var msg := Encode(h, tlvs) + trailing;
    assert msg[2] == head[2] && msg[3] == head[3];
    assert U16(msg, 2) == |body|;
  }

  /** `msg` holds the attribute `t`, padding included, at `offset`. */
  predicate TlvAt(msg: seq<byte>, offset: nat, t: Tlv)
  {
    && offset + Advance(|t.value|) <= |msg|
    && t.kind == U16(msg, offset)
    && |t.value| == U16(msg, offset + 2)
    && t.value == msg[offset + 4..offset + 4 + |t.value|]
  }

  /** `msg` holds `tlvs` one after the other, from `offset` up to `end`. */
  predicate LaidOut(msg: seq<byte>, offset: nat, tlvs: seq<Tlv>, end: nat)
    decreases |tlvs|
  {
    if tlvs == [] then offset == end
    else TlvAt(msg, offset, tlvs[0]) && LaidOut(msg, offset + Advance(|tlvs[0].value|), tlvs[1..], end)
  }

  lemma {:induction false} WalkLaidOut(msg: seq<byte>, offset: nat, tlvs: seq<Tlv>, end: nat)
    requires end <= |msg| && LaidOut(msg, offset, tlvs, end)
    ensures offset <= end && Walk(msg, offset, end) == Placed(tlvs, offset)
    decreases |tlvs|
  {
    if tlvs != [] {
      var next := offset + Advance(|tlvs[0].value|);
      WalkLaidOut(msg, next, tlvs[1..], end);
      WalkOne(msg, offset, tlvs[0], end);
    }
  }

  lemma WalkOne(msg: seq<byte>, offset: nat, t: Tlv, end: nat)
    requires offset + Advance(|t.value|) <= end <= |msg| && TlvAt(msg, offset, t)
    ensures Walk(msg, offset, end)
         == [Attribute(t.kind, offset, t.value)] + Walk(msg, offset + Advance(|t.value|), end)
  {
    assert AttributeAt(msg, offset, end) == Attribute(t.kind, offset, t.value);
  }

  lemma {:induction false} BodyLaidOut(msg: seq<byte>, offset: nat, tlvs: seq<Tlv>, end: nat)
    requires AllValid(tlvs)
    requires offset <= end <= |msg| && msg[offset..end] == Body(tlvs)
    ensures LaidOut(msg, offset, tlvs, end)
    decreases |tlvs|
  {
    hide U16, Bytes16, Advance, Padding;
    if tlvs != [] {
      var bytes, rest := tlvs[0].Encode(), Body(tlvs[1..]);
      SplitSlice(msg, offset, bytes, rest, end);
      ReadBack(msg, offset, tlvs[0]);
      BodyLaidOut(msg, offset + |bytes|, tlvs[1..], end);
    }
  }

  lemma SplitSlice(msg: seq<byte>, offset: nat, a: seq<byte>, b: seq<byte>, end: nat)
    requires offset <= end <= |msg| && msg[offset..end] == a + b
    ensures offset + |a| + |b| == end
    ensures msg[offset..offset + |a|] == a && msg[offset + |a|..end] == b
  {
    assert |msg[offset..end]| == |a| + |b|;
    assert msg[offset..offset + |a|] == msg[offset..end][..|a|];
    assert msg[offset + |a|..end] == msg[offset..end][|a|..];
  }

  lemma ReadBack(msg: seq<byte>, offset: nat, t: Tlv)
    requires t.Valid()
    requires offset + Advance(|t.value|) <= |msg|
    requires msg[offset..offset + Advance(|t.value|)] == t.Encode()
    ensures TlvAt(msg, offset, t)
  {
    var s := t.Encode();
    assert forall i | 0 <= i < |s| :: msg[offset + i] == s[i];
    assert s[..2] == Bytes16(t.kind) && s[2..4] == Bytes16(|t.value|);
    assert s[4..4 + |t.value|] == t.value;
    assert msg[offset + 4..offset + 4 + |t.value|] == s[4..4 + |t.value|];
  }
}
