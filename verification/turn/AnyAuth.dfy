/** The in-place MESSAGE-INTEGRITY rewriter, and the check of section 15.4 of RFC 5389 that it
    is meant to satisfy. */
module AnyAuth {

  import opened Octets
  import opened Stun

  type Mac = s: seq<byte> | |s| == 20 witness seq(20, _ => 0)

  /** MD5 and HMAC-SHA1, about which nothing is assumed but the length of a MAC. */
  datatype Crypto = Crypto(md5: seq<byte> -> seq<byte>, hmacSha1: (seq<byte>, seq<byte>) -> Mac)

  const COLON: byte := 58

  function LongTermKey(crypto: Crypto, username: seq<byte>, realm: seq<byte>, password: seq<byte>): seq<byte>
  {
    crypto.md5(username + [COLON] + realm + [COLON] + password)
  }

  /** `AllowAllAuth`: the key for a non-empty username, with the username as password. */
  function Authenticate(crypto: Crypto, username: seq<byte>, realm: seq<byte>): (seq<byte>, bool)
  {
    if username == [] then ([], false) else (LongTermKey(crypto, username, realm, username), true)
  }

  // ----- What a rewrite does to the bytes -----

  /** The index of the last attribute of a kind, or -1. */
  function LastIndex(attrs: seq<Attribute>, kind: uint16): (i: int)
    ensures -1 <= i < |attrs|
    ensures i >= 0 ==> attrs[i].kind == kind
    ensures forall j | i < j < |attrs| :: attrs[j].kind != kind
  {
    if attrs == [] then -1
    else
      var i := LastIndex(attrs[1..], kind);
      if i >= 0 then i + 1 else if attrs[0].kind == kind then 0 else -1
  }

  function UsernameOf(attrs: seq<Attribute>): seq<byte>
  {
    var i := LastIndex(attrs, USERNAME);
    if i < 0 then [] else attrs[i].value
  }

  function IntegrityOffset(attrs: seq<Attribute>): (offset: int)
    ensures offset >= -1
  {
    var i := LastIndex(attrs, MESSAGE_INTEGRITY);
    if i < 0 then -1 else attrs[i].offset
  }

  /** The message names a user, carries a MESSAGE-INTEGRITY, and has room for a MAC there. */
  predicate Forgeable(msg: seq<byte>)
  {
    && UsernameOf(Attributes(msg)) != []
    && IntegrityOffset(Attributes(msg)) >= 0
    && IntegrityOffset(Attributes(msg)) + 24 <= |msg|
  }

  /** The message up to the attribute at `offset`, with `length` in the header. */
  function SignedText(msg: seq<byte>, offset: nat, length: uint16): seq<byte>
    requires 4 <= offset <= |msg|
  {
    msg[..2] + Bytes16(length) + msg[4..offset]
  }

  /** The header length through the attribute at `offset`, cut to sixteen bits. */
  function LengthThrough(offset: nat): uint16
  {
    (offset + 4 + 20 - HEADER_LENGTH) % 65536
  }

  function MacFor(crypto: Crypto, realm: seq<byte>, msg: seq<byte>): Mac
    requires Forgeable(msg)
  {
    var attrs := Attributes(msg);
    OffsetIsInBody(msg, LastIndex(attrs, MESSAGE_INTEGRITY));
    var offset := IntegrityOffset(attrs);
    var (key, _) := Authenticate(crypto, UsernameOf(attrs), realm);
    crypto.hmacSha1(key, SignedText(msg, offset, LengthThrough(offset)))
  }

  function Forged(crypto: Crypto, realm: seq<byte>, msg: seq<byte>): seq<byte>
  {
    if !Forgeable(msg) then msg
    else
      var offset := IntegrityOffset(Attributes(msg));
      msg[..offset + 4] + MacFor(crypto, realm, msg) + msg[offset + 24..]
  }

  lemma OffsetIsInBody(msg: seq<byte>, i: nat)
    requires i < |Attributes(msg)|
    ensures |msg| >= HEADER_LENGTH
    ensures HEADER_LENGTH <= Attributes(msg)[i].offset
    ensures Attributes(msg)[i].offset % 4 == 0
    ensures Reads(msg, End(msg), Attributes(msg)[i])
  {
    WalkIsTheWalk(msg, HEADER_LENGTH, End(msg), Attributes(msg));
    OffsetsAdvance(Attributes(msg), HEADER_LENGTH, i);
  }

  /** Whatever the message, only the twenty octets of the MAC can change; in particular the
      header keeps its length, and a message without a user or without a MESSAGE-INTEGRITY
      stays as it is. */
  lemma ForgedFrame(crypto: Crypto, realm: seq<byte>, msg: seq<byte>)
    ensures |Forged(crypto, realm, msg)| == |msg|
    ensures forall i | 0 <= i < |msg| && Forged(crypto, realm, msg)[i] != msg[i] ::
      var offset := IntegrityOffset(Attributes(msg));
      Forgeable(msg) && HEADER_LENGTH <= offset && offset + 4 <= i < offset + 24
  {
    if Forgeable(msg) {
      OffsetIsInBody(msg, LastIndex(Attributes(msg), MESSAGE_INTEGRITY));
    }
  }

  // ----- The rewriter -----

  /** The variables the walk's callback captures. */
  datatype Found = Found(username: seq<byte>, integrityOffset: int, haveMI: bool)

  /** The callback: later attributes overwrite earlier ones. */
  function Note(): (Found, Attribute) -> (Found, bool)
  {
    (found: Found, a: Attribute) =>
      (if a.kind == USERNAME then found.(username := a.value)
       else if a.kind == MESSAGE_INTEGRITY then found.(integrityOffset := a.offset, haveMI := true)
       else found,
       true)
  }

  /** The last user name and the last MESSAGE-INTEGRITY, if there are any. */
  function Kept(found: Found, attrs: seq<Attribute>): Found
  {
    var u, m := LastIndex(attrs, USERNAME), LastIndex(attrs, MESSAGE_INTEGRITY);
    Found(if u < 0 then found.username else attrs[u].value,
          if m < 0 then found.integrityOffset else attrs[m].offset,
          m >= 0 || found.haveMI)
  }

  lemma {:induction false} NoteKeepsLast(found: Found, attrs: seq<Attribute>)
    ensures Fold(Note(), found, attrs) == Kept(found, attrs)
    decreases |attrs|
  {
    if attrs != [] {
      NoteKeepsLast(Note()(found, attrs[0]).0, attrs[1..]);
    }
  }

  /** Rewrites the MAC of the message in the first `n` octets of `p`, in place. The result is
      whether it wrote one. */
  method ForgeIntegrity(crypto: Crypto, realm: seq<byte>, p: array<byte>, n: nat) returns (rewritten: bool)
    requires n <= p.Length
    modifies p
    ensures rewritten == Forgeable(old(p[..n]))
    ensures p[..n] == Forged(crypto, realm, old(p[..n]))
    ensures p[n..] == old(p[n..])
  {
    hide LongTermKey, LengthThrough, LastIndex;
    ghost var msg := p[..n];
    ghost var attrs := Attributes(msg);
    NoteKeepsLast(Found([], -1, false), attrs);
    var found := ForEachAttribute(p[..n], Note(), Found([], -1, false));
    var offset := found.integrityOffset;
    if |found.username| == 0 || !found.haveMI || offset < 0 {
      return false;
    }
    if offset + 4 + 20 > n {
      return false;
    }
    OffsetIsInBody(msg, LastIndex(attrs, MESSAGE_INTEGRITY));

    var key := LongTermKey(crypto, found.username, realm, found.username);
    var mac := ComputeMac(crypto, key, p, offset);
    SameText(p[..], n, offset, LengthThrough(offset));
    CopyMac(p, offset + 4, mac);
    return true;
  }

  /** Puts the length through the MESSAGE-INTEGRITY in the header for as long as it takes to
      compute the MAC. */
  method ComputeMac(crypto: Crypto, key: seq<byte>, p: array<byte>, offset: nat) returns (mac: Mac)
    requires HEADER_LENGTH <= offset <= p.Length
    modifies p
    ensures mac == crypto.hmacSha1(key, SignedText(old(p[..]), offset, LengthThrough(offset)))
    ensures p[..] == old(p[..])
  {
    var restore := U16(p[..], 2);
    var lengthThroughMI := (offset + 4 + 20 - HEADER_LENGTH) % 65536;
    PutU16(p, 2, lengthThroughMI);
    assert p[..offset] == SignedText(old(p[..]), offset, lengthThroughMI);
    mac := crypto.hmacSha1(key, p[..offset]);
    PutU16(p, 2, restore);
    Bytes16Unique(old(p[..]), 2);
  }

  method PutU16(p: array<byte>, at: nat, n: uint16)
    requires at + 2 <= p.Length
    modifies p
    ensures p[..] == old(p[..at]) + Bytes16(n) + old(p[at + 2..])
  {
    p[at], p[at + 1] := n / 256, n % 256;
  }

  lemma SameText(p: seq<byte>, n: nat, offset: nat, length: uint16)
    requires 4 <= offset <= n <= |p|
    ensures SignedText(p[..n], offset, length) == SignedText(p, offset, length)
  {
    assert p[..n][..2] == p[..2] && p[..n][4..offset] == p[4..offset];
  }

  method CopyMac(p: array<byte>, at: nat, mac: Mac)
    requires at + 20 <= p.Length
    modifies p
    ensures p[..] == old(p[..at]) + mac + old(p[at + 20..])
  {
    for i := 0 to 20
      invariant p[..at] == old(p[..at]) && p[at..at + i] == mac[..i]
      invariant p[at + i..] == old(p[at + i..])
    {
      p[at + i] := mac[i];
    }
  }

  // ----- The check of section 15.4 of RFC 5389 -----

  function FirstIndex(tlvs: seq<Tlv>, kind: uint16): (i: nat)
    ensures i <= |tlvs|
    ensures i < |tlvs| ==> tlvs[i].kind == kind
    ensures forall j | 0 <= j < i :: tlvs[j].kind != kind
  {
    if tlvs == [] || tlvs[0].kind == kind then 0 else 1 + FirstIndex(tlvs[1..], kind)
  }

  /** The MESSAGE-INTEGRITY value is the HMAC of the header and the attributes before it, with
      a header length that runs through the MESSAGE-INTEGRITY attribute itself. */
  ghost predicate Verifies(crypto: Crypto, key: seq<byte>, h: Header, tlvs: seq<Tlv>)
    requires Encodable(h, tlvs)
  {
    var i := FirstIndex(tlvs, 0x0008);
    && i < |tlvs|
    && |tlvs[i].value| == 20
    && (BodySplit(tlvs, i);
        var before := Body(tlvs[..i]);
        tlvs[i].value == crypto.hmacSha1(key, h.Encode(|before| + 24) + before))
  }

  lemma {:induction false} BodySplit(tlvs: seq<Tlv>, i: nat)
    requires AllValid(tlvs) && i < |tlvs|
    ensures Body(tlvs) == Body(tlvs[..i]) + tlvs[i].Encode() + Body(tlvs[i + 1..])
  {
    if i > 0 {
      var first, rest := tlvs[0].Encode(), tlvs[1..];
      BodySplit(rest, i - 1);
      assert rest[..i - 1] == tlvs[..i][1..] && rest[i..] == tlvs[i + 1..];
      Prepend(first, Body(rest[..i - 1]), tlvs[i].Encode(), Body(rest[i..]));
    }
  }

  lemma Prepend(first: seq<byte>, a: seq<byte>, b: seq<byte>, c: seq<byte>)
    ensures first + (a + b + c) == first + a + b + c
  {
  }

  lemma {:induction false} PlaceOf(tlvs: seq<Tlv>, i: nat, offset: nat)
    requires AllValid(tlvs) && i < |tlvs|
    ensures Placed(tlvs, offset)[i].offset == offset + |Body(tlvs[..i])|
  {
    if i > 0 {
      PlaceOf(tlvs[1..], i - 1, offset + Advance(|tlvs[0].value|));
      assert tlvs[1..][..i - 1] == tlvs[..i][1..];
    }
  }
}
