/** What a rewritten message satisfies. */
module Forgery {

  import opened Octets
  import opened Stun
  import opened AnyAuth

  // ----- The rewritten message passes the check -----

  /** `tlvs` with `mac` as the value of the attribute at `m`. */
  function Signed(tlvs: seq<Tlv>, m: nat, mac: Mac): seq<Tlv>
    requires m < |tlvs|
  {
    tlvs[m := tlvs[m].(value := mac)]
  }

  /** Attribute `u` is the last user name and not empty; attribute `m` is the one
      MESSAGE-INTEGRITY, and holds twenty octets. */
  predicate Credentialed(tlvs: seq<Tlv>, u: nat, m: nat)
  {
    && u < |tlvs| && tlvs[u].kind == 0x0006 && tlvs[u].value != []
    && (forall j | u < j < |tlvs| :: tlvs[j].kind != 0x0006)
    && m < |tlvs| && tlvs[m].kind == 0x0008 && |tlvs[m].value| == 20
    && (forall j | 0 <= j < |tlvs| && j != m :: tlvs[j].kind != 0x0008)
  }

  /** The MAC that the check wants at `m` under `key`. */
  function WantedMac(crypto: Crypto, key: seq<byte>, h: Header, tlvs: seq<Tlv>, m: nat): Mac
    requires Encodable(h, tlvs) && m < |tlvs| && |tlvs[m].value| == 20
  {
    BodySplit(tlvs, m);
    var before := Body(tlvs[..m]);
    crypto.hmacSha1(key, h.Encode(|before| + 24) + before)
  }

  /** An encoded message, cut around the value of attribute `m`. */
  lemma EncodedAround(h: Header, tlvs: seq<Tlv>, trailing: seq<byte>, m: nat)
    requires Encodable(h, tlvs) && m < |tlvs|
    ensures Encode(h, tlvs) + trailing
         == (h.Encode(|Body(tlvs)|) + Body(tlvs[..m])) + (Bytes16(tlvs[m].kind) + Bytes16(|tlvs[m].value|))
            + tlvs[m].value + (tlvs[m].padding + Body(tlvs[m + 1..]) + trailing)
  {
    BodySplit(tlvs, m);
    var t := tlvs[m];
    Regroup(h.Encode(|Body(tlvs)|), Body(tlvs[..m]), Bytes16(t.kind) + Bytes16(|t.value|), t.value, t.padding,
            Body(tlvs[m + 1..]), trailing);
  }

  lemma Regroup(h: seq<byte>, a: seq<byte>, b: seq<byte>, v: seq<byte>, p: seq<byte>, c: seq<byte>, d: seq<byte>)
    ensures h + (a + (b + v + p) + c) + d == h + a + b + v + (p + c + d)
  {
  }

  lemma SignedIsEncodable(h: Header, tlvs: seq<Tlv>, m: nat, mac: Mac)
    requires Encodable(h, tlvs) && m < |tlvs| && |tlvs[m].value| == 20
    ensures Encodable(h, Signed(tlvs, m, mac))
    ensures |Body(Signed(tlvs, m, mac))| == |Body(tlvs)|
  {
    var signed := Signed(tlvs, m, mac);
    BodySplit(signed, m);
    BodySplit(tlvs, m);
    assert signed[..m] == tlvs[..m] && signed[m + 1..] == tlvs[m + 1..];
  }

  /** What the rewriter finds in an encoded message. */
  lemma SelectionOfEncoded(h: Header, tlvs: seq<Tlv>, trailing: seq<byte>, u: nat, m: nat)
    requires Encodable(h, tlvs) && Credentialed(tlvs, u, m)
    ensures var msg := Encode(h, tlvs) + trailing;
      && UsernameOf(Attributes(msg)) == tlvs[u].value
      && IntegrityOffset(Attributes(msg)) == HEADER_LENGTH + |Body(tlvs[..m])|
      && Forgeable(msg)
  {
    var msg := Encode(h, tlvs) + trailing;
    var attrs := Attributes(msg);
    WalkInvertsEncode(h, tlvs, trailing);
    PlacedAt(tlvs, HEADER_LENGTH);
    assert LastIndex(attrs, USERNAME) == u;
    assert LastIndex(attrs, MESSAGE_INTEGRITY) == m;
    BodySplit(tlvs, m);
    PlaceOf(tlvs, m, HEADER_LENGTH);
  }

  /** The rewriter signs the text that the check wants signed. */
  lemma MacIsWanted(crypto: Crypto, realm: seq<byte>, h: Header, tlvs: seq<Tlv>, trailing: seq<byte>, u: nat, m: nat)
    requires Encodable(h, tlvs) && Credentialed(tlvs, u, m)
    ensures var msg, key := Encode(h, tlvs) + trailing, Authenticate(crypto, tlvs[u].value, realm).0;
      Forgeable(msg) && MacFor(crypto, realm, msg) == WantedMac(crypto, key, h, tlvs, m)
  {
    SelectionOfEncoded(h, tlvs, trailing, u, m);
    WantedText(h, tlvs, trailing, m);
  }

  lemma WantedText(h: Header, tlvs: seq<Tlv>, trailing: seq<byte>, m: nat)
    requires Encodable(h, tlvs) && m < |tlvs| && |tlvs[m].value| == 20
    ensures var before, msg := Body(tlvs[..m]), Encode(h, tlvs) + trailing;
      && |before| + 24 <= 65535
      && HEADER_LENGTH + |before| <= |msg|
      && SignedText(msg, HEADER_LENGTH + |before|, LengthThrough(HEADER_LENGTH + |before|))
      == h.Encode(|before| + 24) + before
  {
    hide Body, Bytes16, Padding;
    var before, rest := Body(tlvs[..m]), tlvs[m].Encode() + Body(tlvs[m + 1..]) + trailing;
    BodyBefore(tlvs, m);
    EncodedBefore(h, tlvs, trailing, m);
    TextOf(h, |Body(tlvs)|, before, rest, |before| + 24);
  }

  lemma BodyBefore(tlvs: seq<Tlv>, m: nat)
    requires AllValid(tlvs) && m < |tlvs| && |tlvs[m].value| == 20
    ensures |Body(tlvs[..m])| + 24 <= |Body(tlvs)|
  {
    BodySplit(tlvs, m);
  }

  lemma EncodedBefore(h: Header, tlvs: seq<Tlv>, trailing: seq<byte>, m: nat)
    requires Encodable(h, tlvs) && m < |tlvs|
    ensures Encode(h, tlvs) + trailing
         == h.Encode(|Body(tlvs)|) + Body(tlvs[..m]) + (tlvs[m].Encode() + Body(tlvs[m + 1..]) + trailing)
  {
    BodySplit(tlvs, m);
    Reassociate(h.Encode(|Body(tlvs)|), Body(tlvs[..m]), tlvs[m].Encode(), Body(tlvs[m + 1..]), trailing);
  }

  lemma Reassociate(h: seq<byte>, a: seq<byte>, b: seq<byte>, c: seq<byte>, d: seq<byte>)
    ensures h + (a + b + c) + d == h + a + (b + c + d)
  {
  }

  lemma TextOf(h: Header, was: uint16, before: seq<byte>, rest: seq<byte>, length: uint16)
    requires h.Valid()
    ensures SignedText(h.Encode(was) + before + rest, HEADER_LENGTH + |before|, length)
         == h.Encode(length) + before
  {
    var msg := h.Encode(was) + before + rest;
    assert msg[..2] == Bytes16(h.kind);
    assert msg[4..HEADER_LENGTH + |before|] == h.rest + before;
  }

  /** The rewrite replaces the MESSAGE-INTEGRITY value of an encoded message and nothing else. */
  lemma ForgedIsSigned(crypto: Crypto, realm: seq<byte>, h: Header, tlvs: seq<Tlv>, trailing: seq<byte>, u: nat, m: nat)
    requires Encodable(h, tlvs) && Credentialed(tlvs, u, m)
    ensures var key := Authenticate(crypto, tlvs[u].value, realm).0;
      var signed := Signed(tlvs, m, WantedMac(crypto, key, h, tlvs, m));
      Encodable(h, signed) && Forged(crypto, realm, Encode(h, tlvs) + trailing) == Encode(h, signed) + trailing
  {
    var key := Authenticate(crypto, tlvs[u].value, realm).0;
    var mac := WantedMac(crypto, key, h, tlvs, m);
    SelectionOfEncoded(h, tlvs, trailing, u, m);
    MacIsWanted(crypto, realm, h, tlvs, trailing, u, m);
    SignedIsEncodable(h, tlvs, m, mac);
    Replaced(h, tlvs, trailing, m, mac);
  }

  lemma Replaced(h: Header, tlvs: seq<Tlv>, trailing: seq<byte>, m: nat, mac: Mac)
    requires m < |tlvs| && |tlvs[m].value| == 20
    requires Encodable(h, tlvs) && Encodable(h, Signed(tlvs, m, mac))
    ensures var msg, at := Encode(h, tlvs) + trailing, HEADER_LENGTH + |Body(tlvs[..m])| + 4;
      && at + 20 <= |msg|
      && msg[..at] + mac + msg[at + 20..] == Encode(h, Signed(tlvs, m, mac)) + trailing
  {
    var signed, t := Signed(tlvs, m, mac), tlvs[m];
    SignedIsEncodable(h, tlvs, m, mac);
    EncodedAround(h, tlvs, trailing, m);
    EncodedAround(h, signed, trailing, m);
    assert signed[..m] == tlvs[..m] && signed[m + 1..] == tlvs[m + 1..];
    Splice(h.Encode(|Body(tlvs)|) + Body(tlvs[..m]), Bytes16(t.kind) + Bytes16(20), t.value, mac,
           t.padding + Body(tlvs[m + 1..]) + trailing);
  }

  lemma Splice(a: seq<byte>, b: seq<byte>, was: seq<byte>, now: seq<byte>, c: seq<byte>)
    requires |b| == 4 && |was| == |now| == 20
    ensures var msg, at := a + b + was + c, |a| + 4;
      msg[..at] + now + msg[at + 20..] == a + b + now + c
  {
  }

  /** A message with a user name and one MESSAGE-INTEGRITY of twenty octets leaves the rewriter
      with the same header, length included, and the same attributes, except that it now
      passes the check under the key that `AllowAllAuth` yields for its user name. */
  lemma ForgedMessageVerifies(crypto: Crypto, realm: seq<byte>, h: Header, tlvs: seq<Tlv>, trailing: seq<byte>,
                              u: nat, m: nat)
    returns (signed: seq<Tlv>)
    requires Encodable(h, tlvs) && Credentialed(tlvs, u, m)
    ensures Encodable(h, signed) && Forged(crypto, realm, Encode(h, tlvs) + trailing) == Encode(h, signed) + trailing
    ensures |signed| == |tlvs| && signed[m] == tlvs[m].(value := signed[m].value)
    ensures forall i | 0 <= i < |tlvs| && i != m :: signed[i] == tlvs[i]
    ensures var key := crypto.md5(tlvs[u].value + [58] + realm + [58] + tlvs[u].value);
      Authenticate(crypto, tlvs[u].value, realm) == (key, true) && Verifies(crypto, key, h, signed)
  {
    var key := Authenticate(crypto, tlvs[u].value, realm).0;
    signed := Signed(tlvs, m, WantedMac(crypto, key, h, tlvs, m));
    ForgedIsSigned(crypto, realm, h, tlvs, trailing, u, m);
    SignedVerifies(crypto, key, h, tlvs, u, m);
  }

  /** `msg` is a message of those attributes, and perhaps more octets after it. */
  ghost predicate IsMessage(msg: seq<byte>, h: Header, tlvs: seq<Tlv>, trailing: seq<byte>)
  {
    Encodable(h, tlvs) && msg == Encode(h, tlvs) + trailing
  }

  /** `now` is `was` with the MESSAGE-INTEGRITY at `m` replaced by one that passes the check under `key`. */
  ghost predicate Resigned(crypto: Crypto, key: seq<byte>, h: Header, was: seq<Tlv>, now: seq<Tlv>, m: nat)
    requires m < |was|
  {
    && |now| == |was| && now[m] == was[m].(value := now[m].value)
    && (forall i | 0 <= i < |was| && i != m :: now[i] == was[i])
    && Encodable(h, now) && Verifies(crypto, key, h, now)
  }

  /** `now` is the message signed anew, under the key of the user name with itself as password. */
  ghost predicate SignedAnew(crypto: Crypto, realm: seq<byte>, h: Header, tlvs: seq<Tlv>, trailing: seq<byte>,
                             u: nat, m: nat, now: seq<byte>)
    requires Credentialed(tlvs, u, m)
  {
    var key := crypto.md5(tlvs[u].value + [58] + realm + [58] + tlvs[u].value);
    exists signed: seq<Tlv> :: IsMessage(now, h, signed, trailing) && Resigned(crypto, key, h, tlvs, signed, m)
  }

  /** How a packet leaves the rewriter. A message with a user name and one MESSAGE-INTEGRITY of twenty octets
      comes out signed anew, and otherwise the same. A packet without the one or the other comes out as it
      was. In no packet does any octet change but those of a MAC. */
  ghost predicate Admissible(crypto: Crypto, realm: seq<byte>, was: seq<byte>, now: seq<byte>)
  {
    && (forall h: Header, tlvs: seq<Tlv>, trailing: seq<byte>, u: nat, m: nat
          | IsMessage(was, h, tlvs, trailing) && Credentialed(tlvs, u, m) ::
          SignedAnew(crypto, realm, h, tlvs, trailing, u, m, now))
    && (Lacks(was, 0x0006) || Lacks(was, 0x0008) ==> now == was)
    && |now| == |was|
    && forall i | 0 <= i < |was| && now[i] != was[i] :: InMac(was, i)
  }

  predicate Lacks(msg: seq<byte>, kind: uint16)
  {
    forall a | a in Attributes(msg) :: a.kind != kind
  }

  /** Octet `i` belongs to the MAC of a MESSAGE-INTEGRITY. */
  predicate InMac(msg: seq<byte>, i: nat)
  {
    exists a | a in Attributes(msg) :: a.kind == 0x0008 && a.offset + 4 <= i < a.offset + 24
  }

  /** The rewriter lets every packet out in that way. */
  lemma ForgedIsAdmissible(crypto: Crypto, realm: seq<byte>, msg: seq<byte>)
    ensures Admissible(crypto, realm, msg, Forged(crypto, realm, msg))
  {
    hide Attributes, Encodable, Verifies;
    var forged := Forged(crypto, realm, msg);
    forall h: Header, tlvs: seq<Tlv>, trailing: seq<byte>, u: nat, m: nat
      | IsMessage(msg, h, tlvs, trailing) && Credentialed(tlvs, u, m)
      ensures SignedAnew(crypto, realm, h, tlvs, trailing, u, m, forged)
    {
      var signed := ForgedMessageVerifies(crypto, realm, h, tlvs, trailing, u, m);
      assert IsMessage(forged, h, signed, trailing);
    }
    ForgedOctets(crypto, realm, msg);
  }

  lemma ForgedOctets(crypto: Crypto, realm: seq<byte>, msg: seq<byte>)
    ensures |Forged(crypto, realm, msg)| == |msg|
    ensures forall i | 0 <= i < |msg| && Forged(crypto, realm, msg)[i] != msg[i] :: InMac(msg, i)
  {
    hide Attributes;
    ForgedFrame(crypto, realm, msg);
    if Forgeable(msg) {
      var a := Attributes(msg)[LastIndex(Attributes(msg), MESSAGE_INTEGRITY)];
      assert a in Attributes(msg) && a.kind == 0x0008 && a.offset == IntegrityOffset(Attributes(msg));
    }
  }

  /** Attribute `i` is the last one of its kind. */
  predicate IsLast(tlvs: seq<Tlv>, i: nat, kind: uint16)
  {
    && i < |tlvs| && tlvs[i].kind == kind
    && forall j | i < j < |tlvs| :: tlvs[j].kind != kind
  }

  /** Which encoded messages are rewritten, and where: those whose last user name is not empty, and whose last
      MESSAGE-INTEGRITY, whatever its length, has twenty octets of the packet after its header; and it is
      that one. */
  lemma ForgeableIff(h: Header, tlvs: seq<Tlv>, trailing: seq<byte>)
    requires Encodable(h, tlvs)
    ensures Forgeable(Encode(h, tlvs) + trailing) <==>
              exists u: nat, m: nat | IsLast(tlvs, u, 0x0006) && IsLast(tlvs, m, 0x0008) ::
                tlvs[u].value != [] && 20 + |Body(tlvs[..m])| + 24 <= |Encode(h, tlvs) + trailing|
    ensures forall u: nat | IsLast(tlvs, u, 0x0006) ::
              UsernameOf(Attributes(Encode(h, tlvs) + trailing)) == tlvs[u].value
    ensures forall m: nat | IsLast(tlvs, m, 0x0008) ::
              IntegrityOffset(Attributes(Encode(h, tlvs) + trailing)) == 20 + |Body(tlvs[..m])|
  {
    hide Attributes, Encode;
    var msg := Encode(h, tlvs) + trailing;
    var attrs := Attributes(msg);
    WalkInvertsEncode(h, tlvs, trailing);
    PlacedAt(tlvs, HEADER_LENGTH);
    var u, m := LastIndex(attrs, USERNAME), LastIndex(attrs, MESSAGE_INTEGRITY);
    assert u >= 0 ==> IsLast(tlvs, u, 0x0006);
    if m >= 0 {
      assert IsLast(tlvs, m, 0x0008);
      PlaceOf(tlvs, m, HEADER_LENGTH);
    }
    forall v: nat | IsLast(tlvs, v, 0x0006) ensures v == u {
      assert attrs[v].kind == USERNAME;
    }
    forall n: nat | IsLast(tlvs, n, 0x0008) ensures n == m {
      assert attrs[n].kind == MESSAGE_INTEGRITY;
    }
  }

  lemma SignedVerifies(crypto: Crypto, key: seq<byte>, h: Header, tlvs: seq<Tlv>, u: nat, m: nat)
    requires Encodable(h, tlvs) && Credentialed(tlvs, u, m)
    requires Encodable(h, Signed(tlvs, m, WantedMac(crypto, key, h, tlvs, m)))
    ensures Verifies(crypto, key, h, Signed(tlvs, m, WantedMac(crypto, key, h, tlvs, m)))
  {
    var signed := Signed(tlvs, m, WantedMac(crypto, key, h, tlvs, m));
    assert signed[m].kind == MESSAGE_INTEGRITY;
    assert FirstIndex(signed, MESSAGE_INTEGRITY) == m;
    assert signed[..m] == tlvs[..m];
  }

  /** The rewrite leaves a message alone exactly when it passed the check already. */
  lemma ForgedUnchangedIffVerifies(crypto: Crypto, realm: seq<byte>, h: Header, tlvs: seq<Tlv>, trailing: seq<byte>,
                                   u: nat, m: nat)
    requires Encodable(h, tlvs) && Credentialed(tlvs, u, m)
    ensures var key := Authenticate(crypto, tlvs[u].value, realm).0;
      Verifies(crypto, key, h, tlvs)
      <==> Forged(crypto, realm, Encode(h, tlvs) + trailing) == Encode(h, tlvs) + trailing
  {
    var key := Authenticate(crypto, tlvs[u].value, realm).0;
    var mac := WantedMac(crypto, key, h, tlvs, m);
    var signed := Signed(tlvs, m, mac);
    ForgedIsSigned(crypto, realm, h, tlvs, trailing, u, m);
    assert FirstIndex(tlvs, MESSAGE_INTEGRITY) == m;
    assert Verifies(crypto, key, h, tlvs) <==> tlvs[m].value == mac;
    WalkInvertsEncode(h, tlvs, trailing);
    WalkInvertsEncode(h, signed, trailing);
    PlacedAt(tlvs, HEADER_LENGTH);
    PlacedAt(signed, HEADER_LENGTH);
    assert signed[m].value == mac;
    if tlvs[m].value == mac {
      assert signed == tlvs;
    } else {
      assert Attributes(Encode(h, tlvs) + trailing)[m].value == tlvs[m].value;
    }
  }
}
