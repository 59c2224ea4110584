/** Base32 and base64url (RFC 4648, sections 6 and 5), both unpadded (section 3.2), with the strict
    decoder of section 3.5: an encoding is a regrouping of the input's bits, and a string whose
    leftover bits are not zero decodes to nothing. */
module Rfc4648 {
  import opened Powers
  import opened Wrappers

  type Byte = b: int | 0 <= b < 256
  type Bits = seq<bool>

  // ---- Fixed-width numbers as bit strings, most significant bit first ----

  function ToBits(v: nat, w: nat): (b: Bits)
    ensures |b| == w
  {
    if w == 0 then [] else ToBits(v / 2, w - 1) + [v % 2 == 1]
  }

  function Value(b: Bits): (v: nat)
    ensures v < Pow2(|b|)
  {
    if b == [] then 0 else 2 * Value(b[..|b| - 1]) + (if b[|b| - 1] then 1 else 0)
  }

  lemma {:induction false} ValueThenBits(b: Bits)
    ensures ToBits(Value(b), |b|) == b
  {
    if b != [] {
      ValueThenBits(b[..|b| - 1]);
      assert b == b[..|b| - 1] + [b[|b| - 1]];
    }
  }

  lemma {:induction false} BitsThenValue(v: nat, w: nat)
    requires v < Pow2(w)
    ensures Value(ToBits(v, w)) == v
  {
    if w > 0 {
      BitsThenValue(v / 2, w - 1);
      assert ToBits(v, w)[..w - 1] == ToBits(v / 2, w - 1);
    }
  }

  // ---- Cutting a bit string into digits and laying digits end to end ----

  /** A base32 digit, a base64 digit or a byte. */
  type Width = w: nat | w == 5 || w == 6 || w == 8 witness 8

  /** n * w and n % w by repeated addition and subtraction, which keeps every proof below linear. */
  function Times(n: nat, w: Width): (t: nat)
    ensures w == 5 ==> t == 5 * n
    ensures w == 6 ==> t == 6 * n
    ensures w == 8 ==> t == 8 * n
  {
    if n == 0 then 0 else w + Times(n - 1, w)
  }

  function Mod(n: nat, w: Width): (r: nat)
    ensures r < w && r <= n
  {
    if n < w then n else Mod(n - w, w)
  }

  lemma {:induction false} ModOfWhole(n: nat, r: nat, w: Width)
    requires r < w
    ensures Mod(Times(n, w) + r, w) == r
  {
    if n > 0 {
      ModOfWhole(n - 1, r, w);
      assert Times(n, w) + r - w == Times(n - 1, w) + r;
    }
  }

  lemma {:induction false} ModFive(n: nat)
    ensures Mod(n, 5) == n % 5
  {
    if n >= 5 {
      ModFive(n - 5);
    }
  }

  predicate AllBelow(ds: seq<nat>, bound: nat) {
    forall i | 0 <= i < |ds| :: ds[i] < bound
  }

  function Lay(ds: seq<nat>, w: Width): (b: Bits)
    ensures |b| == Times(|ds|, w)
  {
    if ds == [] then [] else ToBits(ds[0], w) + Lay(ds[1..], w)
  }

  function Cut(b: Bits, w: Width): (ds: seq<nat>)
    ensures AllBelow(ds, Pow2(w))
  {
    if |b| < w then [] else [Value(b[..w])] + Cut(b[w..], w)
  }

  lemma {:induction false} CutLay(ds: seq<nat>, w: Width)
    requires AllBelow(ds, Pow2(w))
    ensures Cut(Lay(ds, w), w) == ds
  {
    if ds != [] {
      CutLay(ds[1..], w);
      BitsThenValue(ds[0], w);
      var b := Lay(ds, w);
      assert b[..w] == ToBits(ds[0], w);
      assert b[w..] == Lay(ds[1..], w);
    }
  }

  lemma {:induction false} LayCut(b: Bits, w: Width)
    requires Mod(|b|, w) == 0
    ensures Lay(Cut(b, w), w) == b
    decreases |b|
  {
    if |b| >= w {
      LayCut(b[w..], w);
      ValueThenBits(b[..w]);
      assert b == b[..w] + b[w..];
    }
  }

  // ---- Regrouping bytes as digits of 5 or 6 bits ----

  function Zeros(n: nat): Bits {
    seq(n, _ => false)
  }

  /** How many zero bits fill the last digit. */
  function Fill(bitCount: nat, w: Width): (n: nat)
    ensures n < w && Mod(bitCount + n, w) == 0
  {
    if bitCount >= w then Fill(bitCount - w, w)
    else if bitCount == 0 then 0
    else w - bitCount
  }

  function Regroup(bytes: seq<Byte>, w: Width): (ds: seq<nat>)
    ensures AllBelow(ds, Pow2(w))
  {
    var bits := Lay(bytes, 8);
    Cut(bits + Zeros(Fill(|bits|, w)), w)
  }

  function Restore(ds: seq<nat>, w: Width): Option<seq<Byte>> {
    BytesOf(Lay(ds, w), w)
  }

  lemma {:induction false} DropSpare(n: nat, w: Width)
    ensures Mod(n - Mod(n, w), w) == 0
  {
    if n >= w {
      DropSpare(n - w, w);
    }
  }

  /** The bits that fill whole bytes. */
  function Whole(bits: Bits): (front: Bits)
    ensures |front| + Mod(|bits|, 8) == |bits| && Mod(|front|, 8) == 0
    ensures bits == front + bits[|front|..]
  {
    DropSpare(|bits|, 8);
    bits[..|bits| - Mod(|bits|, 8)]
  }

  /** The whole bytes of a bit string, when fewer than w bits are left over and all of them are zero. */
  function BytesOf(bits: Bits, w: Width): Option<seq<Byte>> {
    var spare := Mod(|bits|, 8);
    if spare >= w || bits[|bits| - spare..] != Zeros(spare) then None
    else Some(ToBytes(Cut(Whole(bits), 8)))
  }

  function ToBytes(ds: seq<nat>): (bytes: seq<Byte>)
    requires AllBelow(ds, Pow2(8))
    ensures bytes == ds
  {
    BytePow2();
    ds
  }

  lemma BytePow2()
    ensures Pow2(8) == 256
  {
    assert Pow2(4) == 16;
    assert Pow2(6) == 64;
  }

  lemma {:induction false} FillIsUnique(n: nat, fill: nat, w: Width)
    requires fill < w && Mod(n + fill, w) == 0
    ensures fill == Fill(n, w)
  {
    if n >= w {
      FillIsUnique(n - w, fill, w);
    } else if n + fill >= w {
      assert Mod(n + fill - w, w) == n + fill - w;
    }
  }

  lemma CutLayBytes(bytes: seq<Byte>)
    ensures Cut(Lay(bytes, 8), 8) == bytes
  {
    BytePow2();
    assert AllBelow(bytes, 256);
    CutLay(bytes, 8);
  }

  lemma BytesOfPadded(bytes: seq<Byte>, fill: nat, w: Width)
    requires fill < w
    requires w == 8 ==> fill == 0
    ensures BytesOf(Lay(bytes, 8) + Zeros(fill), w) == Some(bytes)
  {
    var bits := Lay(bytes, 8);
    var padded := bits + Zeros(fill);
    assert Mod(|padded|, 8) == fill by { ModOfWhole(|bytes|, fill, 8); }
    assert padded[|bits|..] == Zeros(fill);
    assert padded[..|bits|] == bits;
    CutLayBytes(bytes);
  }

  lemma RegroupThenRestore(bytes: seq<Byte>, w: Width)
    ensures Restore(Regroup(bytes, w), w) == Some(bytes)
  {
    var bits := Lay(bytes, 8);
    var fill := Fill(|bits|, w);
    LayCut(bits + Zeros(fill), w);
    if w == 8 {
      ModOfWhole(|bytes|, 0, 8);
      FillIsUnique(|bits|, 0, 8);
    }
    BytesOfPadded(bytes, fill, w);
  }

  lemma BytesOfBits(bits: Bits, w: Width)
    requires BytesOf(bits, w).Some?
    ensures Mod(|bits|, 8) < w
    ensures bits == Lay(BytesOf(bits, w).value, 8) + Zeros(Mod(|bits|, 8))
  {
    LayCut(Whole(bits), 8);
  }

  lemma FillOfDigits(n: nat, bits: nat, spare: nat, w: Width)
    requires spare < w && Times(n, w) == bits + spare
    ensures Fill(bits, w) == spare
  {
    ModOfWhole(n, 0, w);
    FillIsUnique(bits, spare, w);
  }

  lemma RegroupOfBits(ds: seq<nat>, bytes: seq<Byte>, spare: nat, w: Width)
    requires AllBelow(ds, Pow2(w)) && spare < w
    requires Lay(ds, w) == Lay(bytes, 8) + Zeros(spare)
    ensures Regroup(bytes, w) == ds
  {
    assert |Lay(ds, w)| == Times(|ds|, w);
    FillOfDigits(|ds|, |Lay(bytes, 8)|, spare, w);
    CutLay(ds, w);
  }

  lemma RestoreThenRegroup(ds: seq<nat>, w: Width)
    requires AllBelow(ds, Pow2(w))
    requires Restore(ds, w).Some?
    ensures Regroup(Restore(ds, w).value, w) == ds
  {
    BytesOfBits(Lay(ds, w), w);
    RegroupOfBits(ds, Restore(ds, w).value, Mod(|Lay(ds, w)|, 8), w);
  }

  // ---- The two alphabets ----

  datatype Variant = Base32Lower | Base64Url {
    function Width(): Width {
      if Base32Lower? then 5 else 6
    }

    function Base(): nat {
      if Base32Lower? then 32 else 64
    }

    function Symbol(d: nat): char
      requires d < Base()
    {
      if Base32Lower? then
        if d < 26 then ('a' as int + d) as char else ('2' as int + d - 26) as char
      else
        if d < 26 then ('A' as int + d) as char
        else if d < 52 then ('a' as int + d - 26) as char
        else if d < 62 then ('0' as int + d - 52) as char
        else if d == 62 then '-' else '_'
    }

    function Digit(c: char): (d: Option<nat>)
      ensures d.Some? ==> d.value < Base() && Symbol(d.value) == c
    {
      if Base32Lower? then
        if 'a' <= c <= 'z' then Some(c as int - 'a' as int)
        else if '2' <= c <= '7' then Some(c as int - '2' as int + 26)
        else None
      else
        if 'A' <= c <= 'Z' then Some(c as int - 'A' as int)
        else if 'a' <= c <= 'z' then Some(c as int - 'a' as int + 26)
        else if '0' <= c <= '9' then Some(c as int - '0' as int + 52)
        else if c == '-' then Some(62)
        else if c == '_' then Some(63)
        else None
    }

    predicate InAlphabet(s: string) {
      forall i | 0 <= i < |s| :: Digit(s[i]).Some?
    }
  }

  lemma BaseIsPow2(v: Variant)
    ensures Pow2(v.Width()) == v.Base()
  {
    assert Pow2(3) == 8 && Pow2(5) == 4 * Pow2(3) && Pow2(6) == 2 * Pow2(5);
  }

  function Spell(v: Variant, ds: seq<nat>): (s: string)
    requires AllBelow(ds, v.Base())
    ensures |s| == |ds| && v.InAlphabet(s)
  {
    seq(|ds|, i requires 0 <= i < |ds| => v.Symbol(ds[i]))
  }

  function Unspell(v: Variant, s: string): (ds: seq<nat>)
    requires v.InAlphabet(s)
    ensures |ds| == |s| && AllBelow(ds, v.Base()) && Spell(v, ds) == s
  {
    seq(|s|, i requires 0 <= i < |s| => v.Digit(s[i]).value)
  }

  // ---- The codec ----

  function Encode(v: Variant, bytes: seq<Byte>): (s: string)
    ensures v.InAlphabet(s)
  {
    BaseIsPow2(v);
    Spell(v, Regroup(bytes, v.Width()))
  }

  function Decode(v: Variant, s: string): Option<seq<Byte>> {
    BaseIsPow2(v);
    if v.InAlphabet(s) then Restore(Unspell(v, s), v.Width()) else None
  }

  lemma EncodeThenDecode(v: Variant, bytes: seq<Byte>)
    ensures Decode(v, Encode(v, bytes)) == Some(bytes)
  {
    BaseIsPow2(v);
    var ds := Regroup(bytes, v.Width());
    assert Unspell(v, Spell(v, ds)) == ds;
    RegroupThenRestore(bytes, v.Width());
  }

  /** The decoder accepts canonical strings only: there is one spelling per byte string. */
  lemma DecodeThenEncode(v: Variant, s: string)
    requires Decode(v, s).Some?
    ensures Encode(v, Decode(v, s).value) == s
  {
    BaseIsPow2(v);
    RestoreThenRegroup(Unspell(v, s), v.Width());
  }

  lemma EncodeInjective(v: Variant, a: seq<Byte>, b: seq<Byte>)
    ensures Encode(v, a) == Encode(v, b) <==> a == b
  {
    EncodeThenDecode(v, a);
    EncodeThenDecode(v, b);
  }

  // ---- Bit by bit ----

  function ShiftRight(n: nat, k: nat): nat {
    if k == 0 then n else ShiftRight(n / 2, k - 1)
  }

  /** Bit j of the w bits of n, most significant first. */
  predicate Bit(n: nat, w: nat, j: nat)
    requires j < w
  {
    ShiftRight(n, w - 1 - j) % 2 == 1
  }

  lemma {:induction false} BitOfBits(n: nat, w: nat, j: nat)
    requires j < w
    ensures ToBits(n, w)[j] <==> Bit(n, w, j)
  {
    if j < w - 1 {
      BitOfBits(n / 2, w - 1, j);
    }
  }

  lemma {:induction false} BitOfLay(ds: seq<nat>, w: Width, q: nat, j: nat)
    requires q < |ds| && j < w
    ensures Times(q, w) + j < |Lay(ds, w)| && Lay(ds, w)[Times(q, w) + j] == Bit(ds[q], w, j)
    decreases ds
  {
    if q == 0 {
      BitOfBits(ds[0], w, j);
    } else {
      BitOfLay(ds[1..], w, q - 1, j);
      assert Times(q, w) + j - w == Times(q - 1, w) + j;
    }
  }

  /** The alphabets of Tables 2 and 3. */
  predicate StandsFor(v: Variant, c: char, d: nat) {
    match v
    case Base32Lower =>
      || ('a' <= c <= 'z' && d == c as int - 97)
      || ('2' <= c <= '7' && d == c as int - 24)
    case Base64Url =>
      || ('A' <= c <= 'Z' && d == c as int - 65)
      || ('a' <= c <= 'z' && d == c as int - 71)
      || ('0' <= c <= '9' && d == c as int + 4)
      || (c == '-' && d == 62) || (c == '_' && d == 63)
  }

  lemma SymbolStands(v: Variant, d: nat)
    requires d < v.Base()
    ensures StandsFor(v, v.Symbol(d), d)
  {
  }

  lemma RegroupLays(bytes: seq<Byte>, w: Width)
    ensures Lay(Regroup(bytes, w), w) == Lay(bytes, 8) + Zeros(Fill(|Lay(bytes, 8)|, w))
  {
    var bits := Lay(bytes, 8);
    LayCut(bits + Zeros(Fill(|bits|, w)), w);
  }

  /** Bit k, and nothing behind the last. */
  predicate Has(bits: Bits, k: nat) {
    k < |bits| && bits[k]
  }

  lemma HasPadded(padded: Bits, bits: Bits, fill: nat, k: nat)
    requires padded == bits + Zeros(fill) && k < |padded|
    ensures padded[k] <==> Has(bits, k)
  {
  }

  lemma ByteBit(bytes: seq<Byte>, p: nat, i: nat, k: nat)
    requires i < 8 && k == Times(p, 8) + i
    ensures Has(Lay(bytes, 8), k) <==> p < |bytes| && Bit(bytes[p], 8, i)
  {
    if p < |bytes| {
      BitOfLay(bytes, 8, p, i);
    }
  }

  lemma {:induction false} CutBit(b: Bits, w: Width, q: nat, j: nat)
    requires q < |Cut(b, w)| && j < w
    ensures Times(q, w) + j < |b| && b[Times(q, w) + j] == Bit(Cut(b, w)[q], w, j)
    decreases q
  {
    if q == 0 {
      ValueThenBits(b[..w]);
      BitOfBits(Value(b[..w]), w, j);
    } else {
      CutBit(b[w..], w, q - 1, j);
      assert Times(q, w) + j - w == Times(q - 1, w) + j;
    }
  }

  lemma RegroupedBit(bytes: seq<Byte>, w: Width, q: nat, j: nat, k: nat)
    requires q < |Regroup(bytes, w)| && j < w && k == Times(q, w) + j
    ensures Bit(Regroup(bytes, w)[q], w, j) <==> Has(Lay(bytes, 8), k)
  {
    var bits := Lay(bytes, 8);
    var fill := Fill(|bits|, w);
    CutBit(bits + Zeros(fill), w, q, j);
    HasPadded(bits + Zeros(fill), bits, fill, k);
  }

  lemma RegroupsBitByBit(bytes: seq<Byte>, w: Width, q: nat, j: nat, p: nat, i: nat)
    requires q < |Regroup(bytes, w)| && j < w && i < 8 && Times(q, w) + j == Times(p, 8) + i
    ensures Bit(Regroup(bytes, w)[q], w, j) <==> p < |bytes| && Bit(bytes[p], 8, i)
  {
    RegroupedBit(bytes, w, q, j, Times(q, w) + j);
    ByteBit(bytes, p, i, Times(p, 8) + i);
  }

  lemma EncodedLengths(v: Variant, bytes: seq<Byte>)
    ensures v.Base32Lower? ==> 5 * |Encode(v, bytes)| - 5 < 8 * |bytes| <= 5 * |Encode(v, bytes)|
    ensures v.Base64Url? ==> 6 * |Encode(v, bytes)| - 6 < 8 * |bytes| <= 6 * |Encode(v, bytes)|
  {
    BaseIsPow2(v);
    RegroupLays(bytes, v.Width());
    assert |Lay(Regroup(bytes, v.Width()), v.Width())| == Times(|Encode(v, bytes)|, v.Width());
  }

  /** The encoding's characters stand for digits of 5 or 6 bits each, laid end to end: a bit of character
      q is the bit of byte p wherever the two positions agree, and zero behind the last byte. */
  lemma EncodesBitByBit(v: Variant, bytes: seq<Byte>, q: nat, j: nat, p: nat, i: nat) returns (d: nat)
    requires q < |Encode(v, bytes)| && i < 8
    requires if v.Base32Lower? then j < 5 && 5 * q + j == 8 * p + i else j < 6 && 6 * q + j == 8 * p + i
    ensures StandsFor(v, Encode(v, bytes)[q], d)
    ensures Bit(d, if v.Base32Lower? then 5 else 6, j) <==> p < |bytes| && Bit(bytes[p], 8, i)
  {
    BaseIsPow2(v);
    d := Regroup(bytes, v.Width())[q];
    SymbolStands(v, d);
    RegroupsBitByBit(bytes, v.Width(), q, j, p, i);
  }
}
