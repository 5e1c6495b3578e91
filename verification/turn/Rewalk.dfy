/** Reading a rewritten message again: when the rewrite keeps the attributes apart, and when the
    sixteen-bit length it signs is the true one. */
module Rewalk {

  import opened Octets
  import opened Stun
  import opened AnyAuth

  /** The attribute a rewrite overwrites. */
  function Chosen(msg: seq<byte>): (m: nat)
    requires Forgeable(msg)
    ensures m < |Attributes(msg)| && Attributes(msg)[m].kind == MESSAGE_INTEGRITY
    ensures Attributes(msg)[m].offset == IntegrityOffset(Attributes(msg))
  {
    LastIndex(Attributes(msg), MESSAGE_INTEGRITY)
  }

  /** The twenty octets of the MAC end before the place where the walk looks for another
      attribute, or the walk looks for none. The rewriter checks neither: it only asks for room
      in the whole message. */
  predicate Roomy(msg: seq<byte>)
    requires Forgeable(msg)
  {
    var a := Attributes(msg)[Chosen(msg)];
    |msg| >= HEADER_LENGTH && (a.offset + 24 <= a.Next() || a.Next() + 4 > End(msg))
  }

  /** The same types, offsets and lengths, whatever the values. */
  ghost predicate SameShape(a: seq<Attribute>, b: seq<Attribute>)
  {
    && |a| == |b|
    && forall i | 0 <= i < |a| ::
         a[i].kind == b[i].kind && a[i].offset == b[i].offset && |a[i].value| == |b[i].value|
  }

  /** A MESSAGE-INTEGRITY of the proper length, or of any length that the padding brings to
      twenty octets, is roomy. */
  lemma ProperLengthIsRoomy(msg: seq<byte>)
    requires Forgeable(msg) && |Attributes(msg)[Chosen(msg)].value| > 16
    ensures Roomy(msg)
  {
    hide Walk, LastIndex, U16;
    OffsetIsInBody(msg, Chosen(msg));
  }

  /** `forged` differs from `msg` in the twenty octets after an attribute header at most. */
  ghost predicate Overwrites(msg: seq<byte>, forged: seq<byte>, offset: nat)
  {
    && |forged| == |msg|
    && forall i | 0 <= i < |msg| && !(offset + 4 <= i < offset + 24) :: forged[i] == msg[i]
  }

  /** The attributes that the walk should find in `forged`. */
  function Patched(forged: seq<byte>, attrs: seq<Attribute>, m: nat): seq<Attribute>
    requires m < |attrs| && attrs[m].Finish() <= |forged|
  {
    attrs[m := attrs[m].(value := forged[attrs[m].offset + 4..attrs[m].Finish()])]
  }

  /** `a` lies clear of the MAC written after the header at `offset`, or starts there. */
  predicate ClearOf(a: Attribute, offset: nat)
  {
    a.Finish() <= offset || a.offset == offset || offset + 24 <= a.offset
  }

  lemma AllClear(msg: seq<byte>, i: nat)
    requires Forgeable(msg) && Roomy(msg) && i < |Attributes(msg)|
    ensures ClearOf(Attributes(msg)[i], IntegrityOffset(Attributes(msg)))
    ensures i != Chosen(msg) ==> Attributes(msg)[i].offset != IntegrityOffset(Attributes(msg))
  {
    var m := Chosen(msg);
    if i < m {
      AttributesAreDisjoint(msg, i, m);
    } else if i > m {
      AttributesAreDisjoint(msg, m, i);
    }
  }

  lemma StillReads(msg: seq<byte>, forged: seq<byte>, end: nat, a: Attribute, offset: nat)
    requires end <= |msg| && Reads(msg, end, a)
    requires Overwrites(msg, forged, offset) && ClearOf(a, offset)
    ensures U16(forged, a.offset) == a.kind && U16(forged, a.offset + 2) == |a.value|
    ensures a.offset != offset ==> Reads(forged, end, a)
  {
    if a.offset != offset {
      assert forged[a.offset + 4..a.Finish()] == msg[a.offset + 4..a.Finish()];
    }
  }

  lemma StillStops(msg: seq<byte>, forged: seq<byte>)
    requires Forgeable(msg) && Roomy(msg)
    requires Overwrites(msg, forged, IntegrityOffset(Attributes(msg)))
    ensures !Fits(forged, StopOf(Attributes(msg), HEADER_LENGTH), End(msg))
  {
    var attrs, m := Attributes(msg), Chosen(msg);
    OriginalIsWalk(msg);
    StopIsPast(attrs, HEADER_LENGTH, m);
    SameFits(msg, forged, attrs[m].offset, StopOf(attrs, HEADER_LENGTH), End(msg));
  }

  lemma SameFits(msg: seq<byte>, forged: seq<byte>, offset: nat, at: nat, end: nat)
    requires end <= |msg| && Overwrites(msg, forged, offset)
    requires offset + 24 <= at || at + 4 > end
    ensures Fits(forged, at, end) == Fits(msg, at, end)
  {
  }

  lemma StopIsPast(attrs: seq<Attribute>, start: nat, m: nat)
    requires m < |attrs|
    requires forall k | 0 < k < |attrs| :: attrs[k].offset == attrs[k - 1].Next()
    ensures attrs[m].Next() <= StopOf(attrs, start)
  {
    if m < |attrs| - 1 {
      OffsetsIncrease(attrs, m, |attrs| - 1);
    }
  }

  /** When the message is roomy, walking the rewritten message finds the same types, offsets
      and lengths, and the same values but for the MESSAGE-INTEGRITY, which holds the MAC. */
  lemma RewriteKeepsAttributes(crypto: Crypto, realm: seq<byte>, msg: seq<byte>)
    requires Forgeable(msg) && Roomy(msg)
    ensures var a, b, m := Attributes(msg), Attributes(Forged(crypto, realm, msg)), Chosen(msg);
      && SameShape(a, b)
      && (forall i | 0 <= i < |a| && i != m :: a[i] == b[i])
      && HoldsMac(b[m].value, MacFor(crypto, realm, msg), a[m].value)
  {
    hide Attributes, LastIndex, Roomy;
    var forged, a := Forged(crypto, realm, msg), Attributes(msg)[Chosen(msg)];
    ForgedOverwrites(crypto, realm, msg);
    RewalkIsPatched(msg, forged);
    OffsetIsInBody(msg, Chosen(msg));
    ValueHoldsMac(msg, forged, MacFor(crypto, realm, msg), a.offset + 4, a.Finish());
  }

  /** `now` starts like `mac`, and is like `was` beyond it. */
  ghost predicate HoldsMac(now: seq<byte>, mac: Mac, was: seq<byte>)
  {
    && |now| == |was|
    && forall k | 0 <= k < |now| :: now[k] == if k < 20 then mac[k] else was[k]
  }

  lemma ValueHoldsMac(msg: seq<byte>, forged: seq<byte>, mac: Mac, at: nat, finish: nat)
    requires at <= finish <= |msg| && at + 20 <= |msg|
    requires forged == msg[..at] + mac + msg[at + 20..]
    ensures HoldsMac(forged[at..finish], mac, msg[at..finish])
  {
  }

  lemma ForgedOverwrites(crypto: Crypto, realm: seq<byte>, msg: seq<byte>)
    requires Forgeable(msg)
    ensures Overwrites(msg, Forged(crypto, realm, msg), IntegrityOffset(Attributes(msg)))
  {
    ForgedFrame(crypto, realm, msg);
  }

  lemma RewalkIsPatched(msg: seq<byte>, forged: seq<byte>)
    requires Forgeable(msg) && Roomy(msg)
    requires Overwrites(msg, forged, IntegrityOffset(Attributes(msg)))
    ensures Attributes(msg)[Chosen(msg)].Finish() <= |forged|
    ensures Attributes(forged) == Patched(forged, Attributes(msg), Chosen(msg))
  {
    var attrs, m := Attributes(msg), Chosen(msg);
    OffsetIsInBody(msg, m);
    forall i | 0 <= i < |attrs|
      ensures Reads(forged, End(msg), Patched(forged, attrs, m)[i])
    {
      PatchedReads(msg, forged, i);
    }
    StillStops(msg, forged);
    OriginalIsWalk(msg);
    PatchedIsWalk(forged, attrs, m, End(msg));
    SameEnd(msg, forged, attrs[m].offset);
    WalkIsTheWalk(forged, HEADER_LENGTH, End(msg), Patched(forged, attrs, m));
  }

  lemma SameEnd(msg: seq<byte>, forged: seq<byte>, offset: nat)
    requires |msg| >= HEADER_LENGTH && offset >= HEADER_LENGTH && Overwrites(msg, forged, offset)
    ensures End(forged) == End(msg)
  {
    assert forged[2] == msg[2] && forged[3] == msg[3];
  }

  lemma OriginalIsWalk(msg: seq<byte>)
    requires |msg| >= HEADER_LENGTH
    ensures IsWalk(msg, HEADER_LENGTH, End(msg), Attributes(msg))
  {
    WalkIsTheWalk(msg, HEADER_LENGTH, End(msg), Attributes(msg));
  }

  lemma PatchedReads(msg: seq<byte>, forged: seq<byte>, i: nat)
    requires Forgeable(msg) && Roomy(msg) && i < |Attributes(msg)|
    requires Overwrites(msg, forged, IntegrityOffset(Attributes(msg)))
    ensures Attributes(msg)[Chosen(msg)].Finish() <= |forged|
    ensures Reads(forged, End(msg), Patched(forged, Attributes(msg), Chosen(msg))[i])
  {
    hide Walk, LastIndex, End;
    OffsetIsInBody(msg, Chosen(msg));
    OffsetIsInBody(msg, i);
    AllClear(msg, i);
    StillReads(msg, forged, End(msg), Attributes(msg)[i], IntegrityOffset(Attributes(msg)));
  }

  lemma PatchedIsWalk(forged: seq<byte>, attrs: seq<Attribute>, m: nat, end: nat)
    requires m < |attrs| && attrs[m].Finish() <= end <= |forged|
    requires attrs[0].offset == HEADER_LENGTH
    requires forall i | 0 < i < |attrs| :: attrs[i].offset == attrs[i - 1].Next()
    requires forall i | 0 <= i < |attrs| :: Reads(forged, end, Patched(forged, attrs, m)[i])
    requires !Fits(forged, StopOf(attrs, HEADER_LENGTH), end)
    ensures IsWalk(forged, HEADER_LENGTH, end, Patched(forged, attrs, m))
  {
    var patched := Patched(forged, attrs, m);
    SamePlaces(forged, attrs, m);
    forall i | 0 < i < |patched|
      ensures patched[i].offset == patched[i - 1].Next()
    {
      assert attrs[i].offset == attrs[i - 1].Next();
    }
  }

  lemma SamePlaces(forged: seq<byte>, attrs: seq<Attribute>, m: nat)
    requires m < |attrs| && attrs[m].Finish() <= |forged|
    ensures var patched := Patched(forged, attrs, m);
      && (forall i | 0 <= i < |attrs| :: patched[i].offset == attrs[i].offset && patched[i].Next() == attrs[i].Next())
      && StopOf(patched, HEADER_LENGTH) == StopOf(attrs, HEADER_LENGTH)
  {
  }

  lemma {:induction false} SameLastIndex(a: seq<Attribute>, b: seq<Attribute>, kind: uint16)
    requires SameShape(a, b)
    ensures LastIndex(a, kind) == LastIndex(b, kind)
  {
    if a != [] {
      assert SameShape(a[1..], b[1..]);
      SameLastIndex(a[1..], b[1..], kind);
    }
  }

  /** A second rewrite of a roomy message changes nothing. */
  lemma RewriteIsIdempotent(crypto: Crypto, realm: seq<byte>, msg: seq<byte>)
    requires Forgeable(msg) ==> Roomy(msg)
    ensures Forged(crypto, realm, Forged(crypto, realm, msg)) == Forged(crypto, realm, msg)
  {
    hide Walk, LastIndex, SignedText;
    if Forgeable(msg) {
      var offset := IntegrityOffset(Attributes(msg));
      MacKept(crypto, realm, msg);
      OffsetIsInBody(msg, Chosen(msg));
      SpliceTwice(msg, offset + 4, MacFor(crypto, realm, msg));
    }
  }

  lemma SpliceTwice(msg: seq<byte>, at: nat, mac: Mac)
    requires at + 20 <= |msg|
    ensures var once := msg[..at] + mac + msg[at + 20..];
      once[..at] + mac + once[at + 20..] == once
  {
  }

  lemma MacKept(crypto: Crypto, realm: seq<byte>, msg: seq<byte>)
    requires Forgeable(msg) && Roomy(msg)
    ensures var forged := Forged(crypto, realm, msg);
      && Forgeable(forged)
      && IntegrityOffset(Attributes(forged)) == IntegrityOffset(Attributes(msg))
      && MacFor(crypto, realm, forged) == MacFor(crypto, realm, msg)
  {
    var forged := Forged(crypto, realm, msg);
    SelectionKept(crypto, realm, msg);
    ForgedFrame(crypto, realm, msg);
    OffsetIsInBody(msg, Chosen(msg));
    SameTextSigned(msg, forged, IntegrityOffset(Attributes(msg)));
  }

  lemma SelectionKept(crypto: Crypto, realm: seq<byte>, msg: seq<byte>)
    requires Forgeable(msg) && Roomy(msg)
    ensures var a, b := Attributes(msg), Attributes(Forged(crypto, realm, msg));
      UsernameOf(a) == UsernameOf(b) && IntegrityOffset(a) == IntegrityOffset(b)
  {
    var a, b := Attributes(msg), Attributes(Forged(crypto, realm, msg));
    RewriteKeepsAttributes(crypto, realm, msg);
    SameLastIndex(a, b, USERNAME);
    SameLastIndex(a, b, MESSAGE_INTEGRITY);
  }

  lemma SameTextSigned(msg: seq<byte>, forged: seq<byte>, offset: nat)
    requires HEADER_LENGTH <= offset <= |msg| == |forged|
    requires forall i | 0 <= i < offset :: forged[i] == msg[i]
    ensures SignedText(forged, offset, LengthThrough(offset)) == SignedText(msg, offset, LengthThrough(offset))
  {
    assert forged[..2] == msg[..2] && forged[4..offset] == msg[4..offset];
  }

  /** The condition is exact: in a message that is not roomy some MAC function makes the
      rewrite destroy or invent an attribute, whatever the key. */
  lemma CrampedRewriteBreaksAttributes(md5: seq<byte> -> seq<byte>, realm: seq<byte>, msg: seq<byte>)
    returns (crypto: Crypto)
    requires Forgeable(msg) && !Roomy(msg)
    ensures crypto.md5 == md5
    ensures !SameShape(Attributes(msg), Attributes(Forged(crypto, realm, msg)))
  {
    hide Walk, U16, MacWith, LastIndex, Forged, End;
    var attrs, m := Attributes(msg), Chosen(msg);
    CrampedPlace(msg);
    var at := attrs[m].Next() - attrs[m].offset - 4;
    var x: byte := if m + 1 < |attrs| && attrs[m + 1].kind == 257 then 2 else 1;
    var mac := MacWith(at, x);
    crypto := Crypto(md5, (k, d) => mac);
    MacIs(crypto, realm, msg, mac);
    HeaderFromMac(msg, Forged(crypto, realm, msg), attrs[m].offset, mac, at);
    SameExtent(crypto, realm, msg);
    NextIsWalked(Forged(crypto, realm, msg), attrs, m);
  }

  /** In a cramped message the MAC covers the place where the walk goes on. */
  lemma CrampedPlace(msg: seq<byte>)
    requires Forgeable(msg) && !Roomy(msg)
    ensures var a := Attributes(msg)[Chosen(msg)];
      && |msg| >= HEADER_LENGTH && a.offset + 4 <= a.Next() && a.Next() + 4 <= a.offset + 24 <= |msg|
      && a.Next() + 4 <= End(msg)
  {
    hide Walk, LastIndex;
    OffsetIsInBody(msg, Chosen(msg));
  }

  lemma MacIs(crypto: Crypto, realm: seq<byte>, msg: seq<byte>, mac: Mac)
    requires Forgeable(msg) && forall k, d :: crypto.hmacSha1(k, d) == mac
    ensures var offset := IntegrityOffset(Attributes(msg));
      Forged(crypto, realm, msg) == msg[..offset + 4] + mac + msg[offset + 24..]
  {
    hide Attributes, LastIndex, SignedText, LengthThrough, LongTermKey;
    assert MacFor(crypto, realm, msg) == mac;
  }

  lemma SameExtent(crypto: Crypto, realm: seq<byte>, msg: seq<byte>)
    requires Forgeable(msg)
    ensures |msg| == |Forged(crypto, realm, msg)| >= HEADER_LENGTH && End(Forged(crypto, realm, msg)) == End(msg)
  {
    hide Walk, LastIndex, Forged;
    OffsetIsInBody(msg, Chosen(msg));
    ForgedOverwrites(crypto, realm, msg);
    SameEnd(msg, Forged(crypto, realm, msg), IntegrityOffset(Attributes(msg)));
  }

  /** Where an attribute fits, the walk goes on. */
  lemma NextIsWalked(forged: seq<byte>, attrs: seq<Attribute>, m: nat)
    requires |forged| >= HEADER_LENGTH && m < |attrs|
    requires Fits(forged, attrs[m].Next(), End(forged))
    ensures SameShape(attrs, Attributes(forged))
        ==> m + 1 < |attrs| && attrs[m + 1].kind == U16(forged, attrs[m].Next())
  {
    if SameShape(attrs, Attributes(forged)) {
      NextInWalk(forged, attrs, Attributes(forged), m);
    }
  }

  lemma NextInWalk(forged: seq<byte>, attrs: seq<Attribute>, walk: seq<Attribute>, m: nat)
    requires |forged| >= HEADER_LENGTH && m < |attrs| && walk == Attributes(forged) && SameShape(attrs, walk)
    requires Fits(forged, attrs[m].Next(), End(forged))
    ensures m + 1 < |attrs| && attrs[m + 1].kind == U16(forged, attrs[m].Next())
  {
    hide U16, Padding, End, AttributeAt;
    WalkIsTheWalk(forged, HEADER_LENGTH, End(forged), walk);
    assert walk[m].Next() == attrs[m].Next();
    if m + 1 < |walk| {
      assert walk[m + 1].offset == walk[m].Next();
      assert Reads(forged, End(forged), walk[m + 1]);
    }
  }

  /** A MAC that reads as the header of an empty attribute at `at`. */
  function MacWith(at: nat, x: byte): (mac: Mac)
    requires at + 4 <= 20
    ensures U16(mac, at) == 257 * x as int && U16(mac, at + 2) == 0
  {
    seq(20, i => if i == at || i == at + 1 then x else 0)
  }

  /** Such messages are short and well formed: a user name of four octets, an empty MESSAGE-INTEGRITY
      and one more attribute of 28 octets make 64 octets, with the MAC reaching into the last one. */
  lemma CrampedMessage(h: Header, name: seq<byte>, text: seq<byte>) returns (msg: seq<byte>)
    requires h.Valid() && |name| == 4 && |text| == 28
    ensures |msg| == 64 && Forgeable(msg) && !Roomy(msg)
    ensures Attributes(msg) == [Attribute(USERNAME, 20, name), Attribute(MESSAGE_INTEGRITY, 28, []),
                                Attribute(REALM, 32, text)]
  {
    hide LastIndex, Padding, Advance;
    NeedsNoPadding(REALM, text);
    NeedsNoPadding(MESSAGE_INTEGRITY, []);
    NeedsNoPadding(USERNAME, name);
    var last: seq<Tlv> := [Tlv(REALM, text, [])];
    var rest := [Tlv(MESSAGE_INTEGRITY, [], [])] + last;
    var tlvs := [Tlv(USERNAME, name, [])] + rest;
    PlaceFirst(Tlv(REALM, text, []), [], 32);
    PlaceFirst(Tlv(MESSAGE_INTEGRITY, [], []), last, 28);
    PlaceFirst(Tlv(USERNAME, name, []), rest, 20);
    assert last == [Tlv(REALM, text, [])] + [];
    msg := Encode(h, tlvs);
    WalkInvertsEncode(h, tlvs, []);
    assert msg + [] == msg;
    var attrs := Attributes(msg);
    assert attrs[0].kind == USERNAME && attrs[1].kind == MESSAGE_INTEGRITY && attrs[2].kind == REALM;
    assert LastIndex(attrs, MESSAGE_INTEGRITY) == 1 && LastIndex(attrs, USERNAME) == 0;
    assert attrs[0].value == name;
  }

  lemma NeedsNoPadding(kind: uint16, value: seq<byte>)
    requires |value| < 65536 && |value| % 4 == 0
    ensures Tlv(kind, value, []).Valid() && Advance(|value|) == 4 + |value|
  {
  }

  lemma HeaderFromMac(msg: seq<byte>, forged: seq<byte>, offset: nat, mac: Mac, at: nat)
    requires offset + 24 <= |msg| && at + 4 <= 20
    requires forged == msg[..offset + 4] + mac + msg[offset + 24..]
    ensures U16(forged, offset + 4 + at) == U16(mac, at)
    ensures U16(forged, offset + 4 + at + 2) == U16(mac, at + 2)
  {
  }

  // ----- The sixteen-bit length -----

  /** The length put in the header for the MAC is the true length through the
      MESSAGE-INTEGRITY exactly when that attribute starts before offset 65532; and it does in
      every message under 65556 octets, and wherever the attribute has room for a MAC. */
  lemma LengthIsTrueIff(msg: seq<byte>)
    requires Forgeable(msg)
    ensures var offset := IntegrityOffset(Attributes(msg));
      && (LengthThrough(offset) == offset + 24 - HEADER_LENGTH <==> offset < 65532)
      && (|msg| < 65556 || |Attributes(msg)[Chosen(msg)].value| >= 20 ==> offset < 65532)
  {
    ChosenExtent(msg);
    CutLength(IntegrityOffset(Attributes(msg)));
  }

  lemma ChosenExtent(msg: seq<byte>)
    requires Forgeable(msg)
    ensures var a := Attributes(msg)[Chosen(msg)];
      HEADER_LENGTH <= a.offset && a.Finish() <= 65555 && a.Finish() <= |msg| && a.offset + 24 <= |msg|
  {
    OffsetIsInBody(msg, Chosen(msg));
  }

  lemma CutLength(offset: nat)
    requires offset <= 65555
    ensures LengthThrough(offset) == offset + 24 - HEADER_LENGTH <==> offset < 65532
  {
  }

  /** A message whose signed length is cut: an empty MESSAGE-INTEGRITY after a user name of
      65508 octets is signed with a length of zero. */
  lemma LengthCanBeCut(h: Header) returns (msg: seq<byte>)
    requires h.Valid()
    ensures Forgeable(msg) && IntegrityOffset(Attributes(msg)) == 65532
    ensures LengthThrough(IntegrityOffset(Attributes(msg))) == 0
  {
    hide Padding;
    var name: seq<byte>, room: seq<byte> := seq(65508, _ => 97), seq(20, _ => 0);
    var tlvs := [Tlv(USERNAME, name, []), Tlv(MESSAGE_INTEGRITY, [], [])];
    assert tlvs[1..] == [tlvs[1]] && tlvs[1..][1..] == [];
    assert |Body(tlvs[1..])| == 4;
    assert |Body(tlvs)| == 65516;
    msg := Encode(h, tlvs) + room;
    WalkInvertsEncode(h, tlvs, room);
    var attrs := Attributes(msg);
    assert attrs == [Attribute(USERNAME, 20, name), Attribute(MESSAGE_INTEGRITY, 65532, [])];
    assert attrs[1].kind == MESSAGE_INTEGRITY;
    assert LastIndex(attrs, MESSAGE_INTEGRITY) == 1;
    assert LastIndex(attrs, USERNAME) == 0;
    assert attrs[0].value == name && |name| == 65508;
  }
}
