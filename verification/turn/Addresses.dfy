/** The reflexive address a binding response carries, read back and written. */
module Addresses {

  import opened Octets
  import opened Stun

  /** Address octets and port, in place of the formatted string. `NoAddress` is the empty string. */
  datatype Address = NoAddress | Address(ip: seq<byte>, port: uint16)

  const IPV4: byte := 1
  const IPV6: byte := 2

  const COOKIE_OCTETS: seq<byte> := [0x21, 0x12, 0xA4, 0x42]

  /** The sixteen octets of section 15.2 of RFC 5389: the cookie, then the transaction id. */
  function Mask(msg: seq<byte>): (mask: seq<byte>)
    requires |msg| >= HEADER_LENGTH
    ensures |mask| == 16
  {
    COOKIE_OCTETS + msg[8..20]
  }

  function Masked(ip: seq<byte>, mask: seq<byte>): (s: seq<byte>)
    requires |ip| <= |mask|
    ensures |s| == |ip|
  {
    seq(|ip|, i requires 0 <= i < |ip| => Xor8(ip[i], mask[i]))
  }

  function Decoded(value: seq<byte>, msg: seq<byte>, xor: bool): Address
    requires xor ==> |msg| >= HEADER_LENGTH
  {
    if |value| < 4 then NoAddress
    else if value[1] != IPV4 && value[1] != IPV6 then NoAddress
    else
      var wantLen := if value[1] == IPV6 then 20 else 8;
      if |value| < wantLen then NoAddress
      else if xor then
        Address(Masked(value[4..wantLen], Mask(msg)), Xor16(U16(value, 2), MAGIC_COOKIE / 65536))
      else
        Address(value[4..wantLen], U16(value, 2))
  }

  method DecodeAddress(value: seq<byte>, msg: seq<byte>, xor: bool) returns (addr: Address)
    requires xor ==> |msg| >= HEADER_LENGTH
    ensures addr == Decoded(value, msg, xor)
  {
    hide Mask, Xor8, Xor16;
    if |value| < 4 {
      return NoAddress;
    }
    var wantLen := 8;
    if value[1] == IPV6 {
      wantLen := 20;
    } else if value[1] != IPV4 {
      return NoAddress;
    }
    if |value| < wantLen {
      return NoAddress;
    }

    var port := U16(value, 2);
    var ip := new byte[wantLen - 4](i requires 0 <= i < wantLen - 4 => value[4 + i]);

    if xor {
      port := Xor16(port, MAGIC_COOKIE / 65536);
      var mask := Mask(msg);
      for i := 0 to ip.Length
        invariant forall k | 0 <= k < i :: ip[k] == Xor8(value[4 + k], mask[k])
        invariant forall k | i <= k < ip.Length :: ip[k] == value[4 + k]
      {
        ip[i] := Xor8(ip[i], mask[i]);
      }
    }
    return Address(ip[..], port);
  }

  /** What is decoded, octet by octet and bit by bit: the families are 1 and 2, the port is masked with
      0x2112, and the address with the cookie and then the transaction id. */
  lemma DecodedBits(value: seq<byte>, msg: seq<byte>, xor: bool)
    requires xor ==> |msg| >= 20
    ensures var addr := Decoded(value, msg, xor);
      && (addr.Address? <==> |value| >= 8 && (value[1] == 1 || (value[1] == 2 && |value| >= 20)))
      && (addr.Address? ==>
            && |addr.ip| == (if value[1] == 2 then 16 else 4)
            && var port := (value[2] as int) * 256 + value[3] as int;
            && (!xor ==> addr.ip == value[4..4 + |addr.ip|] && addr.port == port)
            && (xor ==>
                  && (forall i: nat | i < 16 :: Bit(addr.port, i) <==> Bit(port, i) != Bit(0x2112, i))
                  && forall k, i: nat | 0 <= k < |addr.ip| && i < 8 ::
                       var mask := if k < 4 then [0x21, 0x12, 0xA4, 0x42][k] else msg[4 + k];
                       Bit(addr.ip[k], i) <==> Bit(value[4 + k], i) != Bit(mask, i)))
  {
    var addr := Decoded(value, msg, xor);
    if addr.Address? && xor {
      forall i: nat | i < 16 ensures Bit(addr.port, i) <==> Bit(U16(value, 2), i) != Bit(0x2112, i) {
        XorBit(U16(value, 2), 0x2112, 16, i);
      }
      forall k, i: nat | 0 <= k < |addr.ip| && i < 8
        ensures Bit(addr.ip[k], i) <==> Bit(value[4 + k], i) != Bit(Mask(msg)[k], i)
      {
        XorBit(value[4 + k], Mask(msg)[k], 8, i);
      }
    }
  }

  // ----- The encoder of section 15.2 of RFC 5389 -----

  predicate IsIP(ip: seq<byte>)
  {
    |ip| == 4 || |ip| == 16
  }

  /** The attribute value a server writes for an address: a zero octet, the family, the port
      and the address. For XOR-MAPPED-ADDRESS the port is masked with the top half of the
      cookie, and the address with the cookie and the transaction id. */
  function AddressValue(ip: seq<byte>, port: uint16, msg: seq<byte>, xor: bool): (value: seq<byte>)
    requires IsIP(ip)
    requires xor ==> |msg| >= HEADER_LENGTH
    ensures |value| == 4 + |ip|
  {
    [0, if |ip| == 16 then 2 else 1]
    + Bytes16(if xor then Xor16(port, U16(Mask(msg), 0)) else port)
    + if xor then Masked(ip, Mask(msg)) else ip
  }

  /** `value` holds the encoding of the address, apart from its first octet, which receivers
      ignore, and whatever follows the address. */
  predicate Carries(value: seq<byte>, msg: seq<byte>, xor: bool, ip: seq<byte>, port: uint16)
    requires xor ==> |msg| >= HEADER_LENGTH
  {
    && IsIP(ip)
    && |value| >= 4 + |ip|
    && value[1..4 + |ip|] == AddressValue(ip, port, msg, xor)[1..]
  }

  lemma MaskedTwice(ip: seq<byte>, mask: seq<byte>)
    requires |ip| <= |mask|
    ensures Masked(Masked(ip, mask), mask) == ip
  {
    var s := Masked(ip, mask);
    forall i | 0 <= i < |ip|
      ensures Masked(s, mask)[i] == ip[i]
    {
      assert s[i] == Xor8(ip[i], mask[i]);
    }
  }

  /** Decoding is the exact inverse of encoding: an address comes out of precisely the values
      that carry its encoding. */
  lemma DecodeInvertsEncode(value: seq<byte>, msg: seq<byte>, xor: bool, ip: seq<byte>, port: uint16)
    requires xor ==> |msg| >= HEADER_LENGTH
    ensures Decoded(value, msg, xor) == Address(ip, port) <==> Carries(value, msg, xor, ip, port)
  {
    if Decoded(value, msg, xor) == Address(ip, port) {
      DecodedEncodes(value, msg, xor, ip, port);
    }
    if Carries(value, msg, xor, ip, port) {
      EncodedDecodes(value, msg, xor, ip, port);
    }
  }

  lemma DecodedEncodes(value: seq<byte>, msg: seq<byte>, xor: bool, ip: seq<byte>, port: uint16)
    requires xor ==> |msg| >= HEADER_LENGTH
    requires Decoded(value, msg, xor) == Address(ip, port)
    ensures Carries(value, msg, xor, ip, port)
  {
    if xor {
      assert U16(Mask(msg), 0) == MAGIC_COOKIE / 65536;
      MaskedTwice(value[4..4 + |ip|], Mask(msg));
    }
    FieldsCarried(value, msg, xor, ip, port);
  }

  /** The three fields that carry an address. */
  predicate Fields(value: seq<byte>, msg: seq<byte>, xor: bool, ip: seq<byte>, port: uint16)
    requires xor ==> |msg| >= HEADER_LENGTH
  {
    && IsIP(ip) && |value| >= 4 + |ip|
    && value[1] == (if |ip| == 16 then IPV6 else IPV4)
    && U16(value, 2) == (if xor then Xor16(port, U16(Mask(msg), 0)) else port)
    && value[4..4 + |ip|] == if xor then Masked(ip, Mask(msg)) else ip
  }

  lemma FieldsCarried(value: seq<byte>, msg: seq<byte>, xor: bool, ip: seq<byte>, port: uint16)
    requires xor ==> |msg| >= HEADER_LENGTH
    requires Fields(value, msg, xor, ip, port)
    ensures Carries(value, msg, xor, ip, port)
  {
    var wantLen, written := 4 + |ip|, AddressValue(ip, port, msg, xor);
    Bytes16Unique(value, 2);
    assert written[2..4] == value[2..4] && written[4..] == value[4..wantLen];
    SameRest(value[..wantLen], written);
    assert value[1..wantLen] == value[..wantLen][1..];
  }

  lemma SameRest(a: seq<byte>, b: seq<byte>)
    requires |a| == |b| > 4 && a[1] == b[1] && a[2..4] == b[2..4] && a[4..] == b[4..]
    ensures a[1..] == b[1..]
  {
    assert a[1..] == [a[1]] + a[2..4] + a[4..];
    assert b[1..] == [b[1]] + b[2..4] + b[4..];
  }

  lemma EncodedDecodes(value: seq<byte>, msg: seq<byte>, xor: bool, ip: seq<byte>, port: uint16)
    requires xor ==> |msg| >= HEADER_LENGTH
    requires Carries(value, msg, xor, ip, port)
    ensures Decoded(value, msg, xor) == Address(ip, port)
  {
    CarriedFields(value, msg, xor, ip, port);
    if xor {
      assert U16(Mask(msg), 0) == MAGIC_COOKIE / 65536;
      MaskedTwice(ip, Mask(msg));
    }
  }

  lemma CarriedFields(value: seq<byte>, msg: seq<byte>, xor: bool, ip: seq<byte>, port: uint16)
    requires xor ==> |msg| >= HEADER_LENGTH
    requires Carries(value, msg, xor, ip, port)
    ensures Fields(value, msg, xor, ip, port)
  {
    var written := AddressValue(ip, port, msg, xor);
    SameTail(value[..4 + |ip|], written);
    assert value[4..4 + |ip|] == value[..4 + |ip|][4..];
  }

  lemma SameTail(a: seq<byte>, b: seq<byte>)
    requires |a| == |b| > 4 && a[1..] == b[1..]
    ensures a[1] == b[1] && a[2] == b[2] && a[3] == b[3] && a[4..] == b[4..]
  {
    assert forall i | 1 <= i < |a| :: a[i] == a[1..][i - 1] == b[1..][i - 1] == b[i];
  }

  // ----- The first address in a message -----

  /** The address one attribute of `msg` gives, if any. */
  function AddressIn(a: Attribute, msg: seq<byte>): Address
    requires |msg| >= HEADER_LENGTH
  {
    if a.kind == XOR_MAPPED_ADDRESS then Decoded(a.value, msg, true)
    else if a.kind == MAPPED_ADDRESS then Decoded(a.value, msg, false)
    else NoAddress
  }

  /** The callback, with the captured `addr` as its state. A message without a header has no
      attributes to look at. */
  function Look(msg: seq<byte>): (Address, Attribute) -> (Address, bool)
  {
    (addr: Address, a: Attribute) =>
      if |msg| < HEADER_LENGTH then (addr, false)
      else
        var next :=
          if a.kind == XOR_MAPPED_ADDRESS then Decoded(a.value, msg, true)
          else if a.kind == MAPPED_ADDRESS then Decoded(a.value, msg, false)
          else addr;
        (next, next == NoAddress)
  }

  /** `addr` is the first address any of `attrs` gives, and `NoAddress` when none gives one. */
  ghost predicate IsFirst(addr: Address, attrs: seq<Attribute>, msg: seq<byte>)
    requires |msg| >= HEADER_LENGTH
  {
    || (addr == NoAddress && forall i | 0 <= i < |attrs| :: AddressIn(attrs[i], msg) == NoAddress)
    || (addr.Address? && exists i | 0 <= i < |attrs| ::
          AddressIn(attrs[i], msg) == addr && forall j | 0 <= j < i :: AddressIn(attrs[j], msg) == NoAddress)
  }

  lemma {:induction false} LookFindsFirst(attrs: seq<Attribute>, msg: seq<byte>)
    requires |msg| >= HEADER_LENGTH
    ensures IsFirst(Fold(Look(msg), NoAddress, attrs), attrs, msg)
  {
    if attrs != [] {
      LookFindsFirst(attrs[1..], msg);
      if AddressIn(attrs[0], msg) == NoAddress {
        SkipFirst(Fold(Look(msg), NoAddress, attrs[1..]), attrs, msg);
      }
    }
  }

  lemma SkipFirst(addr: Address, attrs: seq<Attribute>, msg: seq<byte>)
    requires |msg| >= HEADER_LENGTH && attrs != [] && AddressIn(attrs[0], msg) == NoAddress
    requires IsFirst(addr, attrs[1..], msg)
    ensures IsFirst(addr, attrs, msg)
  {
    var rest := attrs[1..];
    assert forall j | 0 < j < |attrs| :: attrs[j] == rest[j - 1];
    if addr.Address? {
      var i :| 0 <= i < |rest| && AddressIn(rest[i], msg) == addr
            && forall j | 0 <= j < i :: AddressIn(rest[j], msg) == NoAddress;
      assert attrs[i + 1] == rest[i];
    }
  }

  /** There is only one first address. */
  lemma FirstIsUnique(a: Address, b: Address, attrs: seq<Attribute>, msg: seq<byte>)
    requires |msg| >= HEADER_LENGTH && IsFirst(a, attrs, msg) && IsFirst(b, attrs, msg)
    ensures a == b
  {
  }

  method MappedAddress(b: seq<byte>) returns (addr: Address)
    ensures |b| < HEADER_LENGTH ==> addr == NoAddress
    ensures |b| >= HEADER_LENGTH ==> IsFirst(addr, Attributes(b), b)
  {
    if |b| >= HEADER_LENGTH {
      LookFindsFirst(Attributes(b), b);
    }
    addr := ForEachAttribute(b, Look(b), NoAddress);
  }

  /** Attribute `n` carries the address, and no attribute before it gives one. */
  predicate FirstCarrier(tlvs: seq<Tlv>, n: nat, msg: seq<byte>, ip: seq<byte>, port: uint16)
    requires |msg| >= HEADER_LENGTH && n < |tlvs| && IsIP(ip)
  {
    var t := tlvs[n];
    && (t.kind == 0x0020 || t.kind == 0x0001)
    && t.value == AddressValue(ip, port, msg, t.kind == 0x0020)
    && forall i | 0 <= i < n :: AddressIn(Attribute(tlvs[i].kind, 0, tlvs[i].value), msg) == NoAddress
  }

  /** End to end: from a response laid out by the encoder, the first attribute that gives any
      address gives exactly the address that was encoded into it, for every address, port and
      transaction id. */
  lemma ResponseCarriesAddress(h: Header, tlvs: seq<Tlv>, n: nat, trailing: seq<byte>, ip: seq<byte>, port: uint16,
                               addr: Address)
    requires Encodable(h, tlvs) && n < |tlvs| && IsIP(ip)
    ensures var msg := Encode(h, tlvs) + trailing;
      FirstCarrier(tlvs, n, msg, ip, port) && IsFirst(addr, Attributes(msg), msg) ==> addr == Address(ip, port)
  {
    hide Walk, Attributes;
    var msg := Encode(h, tlvs) + trailing;
    if FirstCarrier(tlvs, n, msg, ip, port) && IsFirst(addr, Attributes(msg), msg) {
      WalkInvertsEncode(h, tlvs, trailing);
      PlacedAt(tlvs, HEADER_LENGTH);
      EncodedDecodes(tlvs[n].value, msg, tlvs[n].kind == XOR_MAPPED_ADDRESS, ip, port);
      FirstAmong(tlvs, Attributes(msg), msg, n, Address(ip, port));
      FirstIsUnique(addr, Address(ip, port), Attributes(msg), msg);
    }
  }

  lemma FirstAmong(tlvs: seq<Tlv>, attrs: seq<Attribute>, msg: seq<byte>, n: nat, addr: Address)
    requires |msg| >= HEADER_LENGTH && |attrs| == |tlvs| && n < |tlvs| && addr.Address?
    requires forall i | 0 <= i < |tlvs| :: attrs[i].kind == tlvs[i].kind && attrs[i].value == tlvs[i].value
    requires AddressIn(Attribute(tlvs[n].kind, 0, tlvs[n].value), msg) == addr
    requires forall i | 0 <= i < n :: AddressIn(Attribute(tlvs[i].kind, 0, tlvs[i].value), msg) == NoAddress
    ensures IsFirst(addr, attrs, msg)
  {
    assert AddressIn(attrs[n], msg) == addr;
    forall i | 0 <= i < n
      ensures AddressIn(attrs[i], msg) == NoAddress
    {
      assert AddressIn(Attribute(tlvs[i].kind, 0, tlvs[i].value), msg) == NoAddress;
    }
  }
}
