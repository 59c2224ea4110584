/** The two identifiers computed from the SHA-256 of a signed PLC operation: the CID that the next
    operation chains from, and the DID itself. */
module PlcIdentifiers {
  import opened Powers
  import opened Wrappers
  import opened Rfc4648

  const HASH_LEN := 32

  type Hash = h: seq<Byte> | |h| == HASH_LEN witness seq(32, _ => 0)

  /** CIDv1, dag-cbor, sha2-256, 32 bytes. */
  const CID_HEADER: seq<Byte> := [0x01, 0x71, 0x12, 0x20]

  function CidText(hash: Hash): string {
    "b" + Encode(Base32Lower, CID_HEADER + hash)
  }

  const DID_CHARS := 24

  function DidText(hash: Hash): string {
    EncodedLength(hash);
    "did:plc:" + Encode(Base32Lower, hash)[..DID_CHARS]
  }

  // ---- Lengths and prefixes of a base32 encoding ----

  lemma {:induction false} CutLength(b: Bits)
    ensures |Cut(b, 5)| == |b| / 5
    decreases |b|
  {
    if |b| >= 5 {
      CutLength(b[5..]);
    }
  }

  lemma {:induction false} LayConcat(a: seq<nat>, b: seq<nat>, w: Width)
    ensures Lay(a + b, w) == Lay(a, w) + Lay(b, w)
  {
    if a == [] {
      assert a + b == b;
    } else {
      assert (a + b)[1..] == a[1..] + b;
      LayConcat(a[1..], b, w);
    }
  }

  lemma EncodedLength(bytes: seq<Byte>)
    ensures |Encode(Base32Lower, bytes)| == (8 * |bytes| + 4) / 5
  {
    var bits := Lay(bytes, 8);
    var fill := Fill(|bits|, 5);
    CutLength(bits + Zeros(fill));
    ModFive(|bits| + fill);
  }

  lemma {:induction false} CutConcat(a: Bits, b: Bits, w: Width)
    requires Mod(|a|, w) == 0
    ensures Cut(a + b, w) == Cut(a, w) + Cut(b, w)
    decreases |a|
  {
    if a == [] {
      assert a + b == b;
    } else {
      CutConcat(a[w..], b, w);
      CutOnce(a, b, w);
    }
  }

  lemma CutOnce(a: Bits, b: Bits, w: Width)
    requires |a| >= w
    ensures Cut(a + b, w) == [Value(a[..w])] + Cut(a[w..] + b, w)
  {
    assert (a + b)[..w] == a[..w];
    assert (a + b)[w..] == a[w..] + b;
  }

  lemma RegroupWhole(bytes: seq<Byte>)
    requires Mod(8 * |bytes|, 5) == 0
    ensures Regroup(bytes, 5) == Cut(Lay(bytes, 8), 5)
  {
    var bits := Lay(bytes, 8);
    FillIsUnique(|bits|, 0, 5);
    assert bits + Zeros(0) == bits;
  }

  lemma CutThree(a: Bits, b: Bits, c: Bits)
    requires Mod(|a|, 5) == 0
    ensures Cut(a + b + c, 5) == Cut(a, 5) + Cut(b + c, 5)
  {
    assert a + b + c == a + (b + c);
    CutConcat(a, b + c, 5);
  }

  lemma FrontRegroupsAlone(front: seq<Byte>, rest: seq<Byte>) returns (more: seq<nat>)
    requires Mod(8 * |front|, 5) == 0
    ensures Regroup(front + rest, 5) == Regroup(front, 5) + more
  {
    var fill := Zeros(Fill(|Lay(front + rest, 8)|, 5));
    more := Cut(Lay(rest, 8) + fill, 5);
    RegroupWhole(front);
    LayConcat(front, rest, 8);
    CutThree(Lay(front, 8), Lay(rest, 8), fill);
  }

  lemma SpellPrefix(v: Variant, a: seq<nat>, b: seq<nat>)
    requires AllBelow(b, v.Base()) && a <= b
    ensures AllBelow(a, v.Base()) && Spell(v, b)[..|a|] == Spell(v, a)
  {
  }

  /** A front that fills whole digits is encoded on its own. */
  lemma FrontEncodesAlone(front: seq<Byte>, rest: seq<Byte>)
    requires 8 * |front| % 5 == 0
    ensures |Encode(Base32Lower, front)| == 8 * |front| / 5 <= |Encode(Base32Lower, front + rest)|
    ensures Encode(Base32Lower, front + rest)[..8 * |front| / 5] == Encode(Base32Lower, front)
  {
    EncodedLength(front);
    ModFive(8 * |front|);
    var more := FrontRegroupsAlone(front, rest);
    BaseIsPow2(Base32Lower);
    SpellPrefix(Base32Lower, Regroup(front, 5), Regroup(front + rest, 5));
  }

  // ---- The CID ----

  function Bit(b: bool): nat {
    if b then 1 else 0
  }

  lemma ValueOf5(b: Bits)
    requires |b| == 5
    ensures Value(b) == 16 * Bit(b[0]) + 8 * Bit(b[1]) + 4 * Bit(b[2]) + 2 * Bit(b[3]) + Bit(b[4])
  {
    assert Value(b[..0]) == 0;
    assert b[..5] == b;
    assert forall i | 0 <= i < 5 :: b[..i + 1][..i] == b[..i];
    assert Value(b[..1]) == Bit(b[0]);
    assert Value(b[..2]) == 2 * Value(b[..1]) + Bit(b[1]);
    assert Value(b[..3]) == 2 * Value(b[..2]) + Bit(b[2]);
    assert Value(b[..4]) == 2 * Value(b[..3]) + Bit(b[3]);
  }

  lemma ToBits5(b: Bits, v: nat)
    requires |b| == 5
    requires v == 16 * Bit(b[0]) + 8 * Bit(b[1]) + 4 * Bit(b[2]) + 2 * Bit(b[3]) + Bit(b[4])
    ensures ToBits(v, 5) == b
  {
    ValueOf5(b);
    ValueThenBits(b);
  }

  lemma ToBits8(b: Bits, v: nat)
    requires |b| == 8
    requires v == 8 * (16 * Bit(b[0]) + 8 * Bit(b[1]) + 4 * Bit(b[2]) + 2 * Bit(b[3]) + Bit(b[4]))
                  + 4 * Bit(b[5]) + 2 * Bit(b[6]) + Bit(b[7])
    ensures ToBits(v, 8) == b
  {
    ValueOf5(b[..5]);
    assert b[..6][..5] == b[..5] && b[..7][..6] == b[..6] && b[..7] == b[..|b| - 1];
    assert Value(b[..6]) == 2 * Value(b[..5]) + Bit(b[5]);
    assert Value(b[..7]) == 2 * Value(b[..6]) + Bit(b[6]);
    assert Value(b) == v;
    ValueThenBits(b);
  }

  const HEADER_DIGITS: seq<nat> := [0, 5, 24, 17, 4, 8]

  lemma LayFront(d: nat, bits: Bits, ds: seq<nat>, w: Width)
    requires ToBits(d, w) == bits
    ensures Lay([d] + ds, w) == bits + Lay(ds, w)
  {
    assert ([d] + ds)[1..] == ds;
  }

  const HEADER_BITS: Bits :=
    [false, false, false, false, false, false, false, true]
    + ([false, true, true, true, false, false, false, true]
       + ([false, false, false, true, false, false, true, false]
          + [false, false, true, false, false, false, false, false]))

  lemma LayFour(a: nat, b: nat, c: nat, d: nat, ab: Bits, bb: Bits, cb: Bits, db: Bits)
    requires ToBits(a, 8) == ab && ToBits(b, 8) == bb && ToBits(c, 8) == cb && ToBits(d, 8) == db
    ensures Lay([a, b, c, d], 8) == ab + (bb + (cb + db))
  {
    LayFront(d, db, [], 8);
    LayFront(c, cb, [d], 8);
    LayFront(b, bb, [c, d], 8);
    LayFront(a, ab, [b, c, d], 8);
    assert [a] + ([b] + ([c] + ([d] + []))) == [a, b, c, d];
    assert [b] + [c, d] == [b, c, d] && [c] + [d] == [c, d];
  }

  lemma HeaderBytesLaid()
    ensures Lay(CID_HEADER, 8) == HEADER_BITS
  {
    var b0 := [false, false, false, false, false, false, false, true];
    var b1 := [false, true, true, true, false, false, false, true];
    var b2 := [false, false, false, true, false, false, true, false];
    var b3 := [false, false, true, false, false, false, false, false];
    ToBits8(b0, 0x01);
    ToBits8(b1, 0x71);
    ToBits8(b2, 0x12);
    ToBits8(b3, 0x20);
    LayFour(0x01, 0x71, 0x12, 0x20, b0, b1, b2, b3);
  }

  lemma HeaderDigitsLaid()
    ensures Lay(HEADER_DIGITS, 5) + [false, false] == HEADER_BITS
  {
    var d0 := [false, false, false, false, false];
    var d1 := [false, false, true, false, true];
    var d2 := [true, true, false, false, false];
    var d3 := [true, false, false, false, true];
    var d4 := [false, false, true, false, false];
    var d5 := [false, true, false, false, false];
    ToBits5(d0, 0);
    ToBits5(d1, 5);
    ToBits5(d2, 24);
    ToBits5(d3, 17);
    ToBits5(d4, 4);
    ToBits5(d5, 8);
    LayFront(8, d5, [], 5);
    LayFront(4, d4, [8], 5);
    LayFront(17, d3, [4, 8], 5);
    LayFront(24, d2, [17, 4, 8], 5);
    LayFront(5, d1, [24, 17, 4, 8], 5);
    LayFront(0, d0, [5, 24, 17, 4, 8], 5);
    SameHeaderBits();
  }

  lemma SameHeaderBits()
    ensures [false, false, false, false, false] + ([false, false, true, false, true]
            + ([true, true, false, false, false] + ([true, false, false, false, true]
            + ([false, false, true, false, false] + ([false, true, false, false, false] + [])))))
            + [false, false]
         == HEADER_BITS
  {
  }

  lemma EncodingStart(hash: Hash)
    ensures |Encode(Base32Lower, CID_HEADER + hash)| == 58
    ensures Encode(Base32Lower, CID_HEADER + hash)[..6] == "afyrei"
  {
    EncodedLength(CID_HEADER + hash);
    HeaderRegrouped(hash);
    BaseIsPow2(Base32Lower);
    HeaderSpelled(Regroup(CID_HEADER + hash, 5));
  }

  lemma AfterFirst(c: char, s: string, n: nat)
    requires n <= |s|
    ensures ([c] + s)[..n + 1] == [c] + s[..n]
  {
  }

  /** The 32 header bits are six whole digits and two bits of the seventh, so every CID starts alike. */
  lemma CidPrefix(hash: Hash)
    ensures |CidText(hash)| == 59
    ensures CidText(hash)[..7] == "bafyrei"
  {
    EncodingStart(hash);
    AfterFirst('b', Encode(Base32Lower, CID_HEADER + hash), 6);
  }

  lemma HeaderSpelled(ds: seq<nat>)
    requires AllBelow(ds, 32) && |ds| >= 6 && ds[..6] == HEADER_DIGITS
    ensures Spell(Base32Lower, ds)[..6] == "afyrei"
  {
    var s := Spell(Base32Lower, ds);
    assert ds[0] == ds[..6][0] && ds[1] == ds[..6][1] && ds[2] == ds[..6][2];
    assert ds[3] == ds[..6][3] && ds[4] == ds[..6][4] && ds[5] == ds[..6][5];
    assert s[0] == 'a' && s[1] == 'f' && s[2] == 'y' && s[3] == 'r' && s[4] == 'e' && s[5] == 'i';
  }

  lemma HeaderRegrouped(hash: Hash)
    ensures |Regroup(CID_HEADER + hash, 5)| >= 6
    ensures Regroup(CID_HEADER + hash, 5)[..6] == HEADER_DIGITS
  {
    LayConcat(CID_HEADER, hash, 8);
    HeaderBytesLaid();
    var fill := Zeros(Fill(|Lay(CID_HEADER + hash, 8)|, 5));
    HeaderCut(Lay(hash, 8) + fill);
    assert Lay(CID_HEADER + hash, 8) + fill == HEADER_BITS + (Lay(hash, 8) + fill);
  }

  lemma HeaderCut(rest: Bits)
    ensures |Cut(HEADER_BITS + rest, 5)| >= 6
    ensures Cut(HEADER_BITS + rest, 5)[..6] == HEADER_DIGITS
  {
    HeaderDigitsLaid();
    BaseIsPow2(Base32Lower);
    DigitsComeFirst(HEADER_DIGITS, [false, false], rest);
  }

  lemma DigitsComeFirst(digits: seq<nat>, left: Bits, rest: Bits)
    requires AllBelow(digits, Pow2(5))
    ensures var cut := Cut(Lay(digits, 5) + left + rest, 5);
            |cut| >= |digits| && cut[..|digits|] == digits
  {
    CutLay(digits, 5);
    ModOfWhole(|digits|, 0, 5);
    CutConcat(Lay(digits, 5), left + rest, 5);
    assert Lay(digits, 5) + left + rest == Lay(digits, 5) + (left + rest);
  }

  lemma CidCarriesHash(hash: Hash)
    ensures CidText(hash)[0] == 'b'
    ensures Decode(Base32Lower, CidText(hash)[1..]) == Some([0x01, 0x71, 0x12, 0x20] + hash)
  {
    EncodeThenDecode(Base32Lower, CID_HEADER + hash);
  }

  lemma CidInjective(a: Hash, b: Hash)
    ensures CidText(a) == CidText(b) <==> a == b
  {
    EncodeInjective(Base32Lower, CID_HEADER + a, CID_HEADER + b);
    if CidText(a) == CidText(b) {
      assert CidText(a)[1..] == CidText(b)[1..];
      assert (CID_HEADER + a)[4..] == (CID_HEADER + b)[4..];
    }
  }

  // ---- The DID ----

  const DID_BYTES := 15

  lemma DidIsEncodedFront(hash: Hash)
    ensures DidText(hash) == "did:plc:" + Encode(Base32Lower, hash[..15])
    ensures |DidText(hash)| == |"did:plc:"| + 24
    ensures Decode(Base32Lower, DidText(hash)[|"did:plc:"|..]) == Some(hash[..15])
  {
    FrontEncodesAlone(hash[..DID_BYTES], hash[DID_BYTES..]);
    assert hash == hash[..DID_BYTES] + hash[DID_BYTES..];
    EncodeThenDecode(Base32Lower, hash[..DID_BYTES]);
  }

  /** A DID tells two hashes apart by their first 120 bits and by nothing else. */
  lemma DidSeparates(a: Hash, b: Hash)
    ensures DidText(a) == DidText(b) <==> a[..15] == b[..15]
  {
    DidIsEncodedFront(a);
    DidIsEncodedFront(b);
  }
}
