/** The pairing string a device shows as a QR code or text: `av1` and three base64url fields. */
module PairingCode {
  import opened Wrappers
  import opened Rfc4648

  // ---- Rust strings: byte sequences that are well-formed UTF-8 (Unicode Table 3-7) ----

  predicate IsContinuation(b: Byte) { 0x80 <= b <= 0xBF }

  /** The length of the well-formed code point at the front of `b`, or 0. */
  function CodePointLength(b: seq<Byte>): (n: nat)
    ensures n <= |b|
  {
    if b == [] then 0
    else if b[0] <= 0x7F then 1
    else if 0xC2 <= b[0] <= 0xDF then
      if |b| >= 2 && IsContinuation(b[1]) then 2 else 0
    else if 0xE0 <= b[0] <= 0xEF then
      if && |b| >= 3 && IsContinuation(b[1]) && IsContinuation(b[2])
         && (b[0] == 0xE0 ==> b[1] >= 0xA0) && (b[0] == 0xED ==> b[1] <= 0x9F)
      then 3 else 0
    else if 0xF0 <= b[0] <= 0xF4 then
      if && |b| >= 4 && IsContinuation(b[1]) && IsContinuation(b[2]) && IsContinuation(b[3])
         && (b[0] == 0xF0 ==> b[1] >= 0x90) && (b[0] == 0xF4 ==> b[1] <= 0x8F)
      then 4 else 0
    else 0
  }

  predicate IsUtf8(b: seq<Byte>) {
    b == [] || (CodePointLength(b) > 0 && IsUtf8(b[CodePointLength(b)..]))
  }

  type RustString = b: seq<Byte> | IsUtf8(b) witness []

  datatype Code = Code(mailboxUrl: RustString, sessionId: RustString, ephemeralPub: seq<Byte>)

  const PAIRING_PREFIX := "av1"

  // ---- str::trim and str::split ----

  /** Unicode White_Space. */
  predicate IsWhitespace(c: char) {
    || '\t' <= c <= '\r' || c == ' ' || c == '\U{85}' || c == '\U{A0}' || c == '\U{1680}'
    || '\U{2000}' <= c <= '\U{200A}' || c == '\U{2028}' || c == '\U{2029}' || c == '\U{202F}'
    || c == '\U{205F}' || c == '\U{3000}'
  }

  predicate AllWhitespace(s: string) {
    forall i | 0 <= i < |s| :: IsWhitespace(s[i])
  }

  function TrimStart(s: string): string {
    if s != [] && IsWhitespace(s[0]) then TrimStart(s[1..]) else s
  }

  function TrimEnd(s: string): string {
    if s != [] && IsWhitespace(s[|s| - 1]) then TrimEnd(s[..|s| - 1]) else s
  }

  function Trim(s: string): string {
    TrimEnd(TrimStart(s))
  }

  lemma {:induction false} TrimStartDrops(pre: string, s: string)
    requires AllWhitespace(pre) && s != [] && !IsWhitespace(s[0])
    ensures TrimStart(pre + s) == s
  {
    if pre == [] {
      assert pre + s == s;
    } else {
      assert (pre + s)[1..] == pre[1..] + s;
      TrimStartDrops(pre[1..], s);
    }
  }

  lemma {:induction false} TrimEndDrops(s: string, post: string)
    requires AllWhitespace(post) && s != [] && !IsWhitespace(s[|s| - 1])
    ensures TrimEnd(s + post) == s
  {
    if post == [] {
      assert s + post == s;
    } else {
      assert (s + post)[..|s + post| - 1] == s + post[..|post| - 1];
      TrimEndDrops(s, post[..|post| - 1]);
    }
  }

  lemma TrimSurrounded(pre: string, s: string, post: string)
    requires AllWhitespace(pre) && AllWhitespace(post)
    requires s != [] && !IsWhitespace(s[0]) && !IsWhitespace(s[|s| - 1])
    ensures Trim(pre + s + post) == s
  {
    assert pre + s + post == pre + (s + post);
    TrimStartDrops(pre, s + post);
    TrimEndDrops(s, post);
  }

  lemma {:induction false} TrimParts(s: string) returns (before: string, after: string)
    ensures AllWhitespace(before) && AllWhitespace(after) && s == before + Trim(s) + after
  {
    before := TrimStartPart(s);
    after := TrimEndPart(TrimStart(s));
  }

  lemma {:induction false} TrimStartPart(s: string) returns (before: string)
    ensures AllWhitespace(before) && s == before + TrimStart(s)
  {
    before := [];
    if s != [] && IsWhitespace(s[0]) {
      before := TrimStartPart(s[1..]);
      before := [s[0]] + before;
    }
  }

  lemma {:induction false} TrimEndPart(s: string) returns (after: string)
    ensures AllWhitespace(after) && s == TrimEnd(s) + after
  {
    after := [];
    if s != [] && IsWhitespace(s[|s| - 1]) {
      after := TrimEndPart(s[..|s| - 1]);
      after := after + [s[|s| - 1]];
    }
  }

  function Split(s: string, sep: char): (parts: seq<string>)
    ensures |parts| >= 1
  {
    if s == [] then [[]]
    else
      var rest := Split(s[1..], sep);
      if s[0] == sep then [[]] + rest else [[s[0]] + rest[0]] + rest[1..]
  }

  function Join(parts: seq<string>, sep: char): string
    requires |parts| >= 1
  {
    if |parts| == 1 then parts[0] else parts[0] + [sep] + Join(parts[1..], sep)
  }

  lemma {:induction false} SplitThenJoin(s: string, sep: char)
    ensures Join(Split(s, sep), sep) == s
  {
    if s != [] {
      SplitThenJoin(s[1..], sep);
      var rest := Split(s[1..], sep);
      assert s == [s[0]] + s[1..];
      if s[0] == sep {
        assert Split(s, sep)[1..] == rest;
      } else if |rest| > 1 {
        assert Split(s, sep)[1..] == rest[1..];
        assert [s[0]] + (rest[0] + [sep] + Join(rest[1..], sep))
            == ([s[0]] + rest[0]) + [sep] + Join(rest[1..], sep);
      }
    }
  }

  lemma {:induction false} JoinThenSplit(parts: seq<string>, sep: char)
    requires |parts| >= 1
    requires forall i | 0 <= i < |parts| :: sep !in parts[i]
    ensures Split(Join(parts, sep), sep) == parts
    decreases |parts|, |parts[0]|
  {
    var s := Join(parts, sep);
    if parts[0] == [] {
      if |parts| > 1 {
        JoinThenSplit(parts[1..], sep);
        assert s[1..] == Join(parts[1..], sep);
        assert parts == [[]] + parts[1..];
      }
    } else {
      var shorter := parts[0 := parts[0][1..]];
      assert shorter[1..] == parts[1..];
      JoinThenSplit(shorter, sep);
      assert s[1..] == Join(shorter, sep);
      assert [s[0]] + shorter[0] == parts[0];
    }
  }

  // ---- PairingCode::encode and PairingCode::decode ----

  function Field(bytes: seq<Byte>): string {
    Encode(Base64Url, bytes)
  }

  function Fields(code: Code): seq<string> {
    [PAIRING_PREFIX, Field(code.mailboxUrl), Field(code.sessionId), Field(code.ephemeralPub)]
  }

  function EncodeCode(code: Code): string {
    Join(Fields(code), '.')
  }

  /** The text shown: the version and the three fields in their order. */
  lemma CodeText(code: Code)
    ensures EncodeCode(code) == "av1." + Encode(Base64Url, code.mailboxUrl) + "." + Encode(Base64Url, code.sessionId)
                                + "." + Encode(Base64Url, code.ephemeralPub)
  {
    var f := Fields(code);
    assert f[1..][1..] == f[2..] && f[2..][1..] == [f[3]];
    assert Join(f[2..], '.') == f[2] + ['.'] + f[3];
    assert Join(f[1..], '.') == f[1] + ['.'] + Join(f[2..], '.');
  }

  datatype Error = InvalidCode | BadField(what: string)

  function DecodeText(field: string, what: string): (r: Result<RustString, Error>) {
    match Decode(Base64Url, field)
    case None => Err(BadField(what))
    case Some(bytes) => if IsUtf8(bytes) then Ok(bytes) else Err(BadField(what + " utf8"))
  }

  function DecodeFields(parts: seq<string>): Result<Code, Error> {
    if |parts| != 4 || parts[0] != PAIRING_PREFIX then Err(InvalidCode)
    else match DecodeText(parts[1], "mailbox_url")
      case Err(e) => Err(e)
      case Ok(url) => match DecodeText(parts[2], "session_id")
        case Err(e) => Err(e)
        case Ok(session) => match Decode(Base64Url, parts[3])
          case None => Err(BadField("ephemeral_pub"))
          case Some(pub) => Ok(Code(url, session, pub))
  }

  function DecodeCode(s: string): Result<Code, Error> {
    DecodeFields(Split(Trim(s), '.'))
  }

  lemma TextComesBack(field: string, what: string, bytes: seq<Byte>)
    requires DecodeText(field, what) == Ok(bytes)
    ensures Field(bytes) == field
  {
    DecodeThenEncode(Base64Url, field);
  }

  lemma KeyComesBack(field: string, bytes: seq<Byte>)
    requires Decode(Base64Url, field) == Some(bytes)
    ensures Field(bytes) == field
  {
    DecodeThenEncode(Base64Url, field);
  }

  lemma TextGoesThrough(bytes: RustString, what: string)
    ensures DecodeText(Field(bytes), what) == Ok(bytes)
  {
    EncodeThenDecode(Base64Url, bytes);
  }

  predicate AreFieldsOf(parts: seq<string>, code: Code) {
    && |parts| == 4 && parts[0] == PAIRING_PREFIX
    && Field(code.mailboxUrl) == parts[1] && Field(code.sessionId) == parts[2] && Field(code.ephemeralPub) == parts[3]
  }

  /** An accepted code has each of its fields from the part at its place. */
  lemma DecodedFields(parts: seq<string>, code: Code)
    requires DecodeFields(parts) == Ok(code)
    ensures AreFieldsOf(parts, code)
  {
    TextComesBack(parts[1], "mailbox_url", code.mailboxUrl);
    TextComesBack(parts[2], "session_id", code.sessionId);
    KeyComesBack(parts[3], code.ephemeralPub);
  }

  lemma FieldsAreAll(parts: seq<string>, code: Code)
    requires AreFieldsOf(parts, code)
    ensures Fields(code) == parts
  {
  }

  lemma FieldsRoundTrip(parts: seq<string>, code: Code)
    requires AreFieldsOf(parts, code)
    ensures DecodeFields(parts) == Ok(code)
  {
    TextGoesThrough(code.mailboxUrl, "mailbox_url");
    TextGoesThrough(code.sessionId, "session_id");
    EncodeThenDecode(Base64Url, code.ephemeralPub);
  }

  lemma FieldIsPlain(bytes: seq<Byte>)
    ensures '.' !in Field(bytes)
    ensures forall i | 0 <= i < |Field(bytes)| :: !IsWhitespace(Field(bytes)[i])
  {
  }

  lemma FieldsArePlain(code: Code)
    ensures forall i | 0 <= i < 4 :: '.' !in Fields(code)[i]
  {
    FieldIsPlain(code.mailboxUrl);
    FieldIsPlain(code.sessionId);
    FieldIsPlain(code.ephemeralPub);
  }

  /** The pairing string survives a copy-paste that adds whitespace around it. */
  lemma EncodeThenDecodeCode(code: Code, before: string, after: string)
    requires AllWhitespace(before) && AllWhitespace(after)
    ensures DecodeCode(before + EncodeCode(code) + after) == Ok(code)
  {
    var s := EncodeCode(code);
    EncodedEnds(code);
    TrimSurrounded(before, s, after);
    FieldsArePlain(code);
    JoinThenSplit(Fields(code), '.');
    FieldsRoundTrip(Fields(code), code);
  }

  lemma EncodedEnds(code: Code)
    ensures EncodeCode(code) != [] && EncodeCode(code)[0] == 'a'
    ensures !IsWhitespace(EncodeCode(code)[|EncodeCode(code)| - 1])
  {
    var f := Fields(code);
    FieldIsPlain(code.ephemeralPub);
    assert Join(f[2..], '.') == f[2] + ['.'] + f[3];
    assert Join(f[1..], '.') == f[1] + ['.'] + Join(f[2..], '.') by { assert f[1..][1..] == f[2..]; }
    assert EncodeCode(code) == f[0] + ['.'] + Join(f[1..], '.');
  }

  /** Every accepted string is, once trimmed, the one spelling of the code it carries. */
  lemma DecodeThenEncodeCode(s: string)
    requires DecodeCode(s).Ok?
    ensures EncodeCode(DecodeCode(s).value) == Trim(s)
  {
    SplitThenJoin(Trim(s), '.');
    DecodedFields(Split(Trim(s), '.'), DecodeCode(s).value);
    FieldsAreAll(Split(Trim(s), '.'), DecodeCode(s).value);
  }

  /** decode reads a code from exactly the strings that are its encoding with whitespace around it. */
  lemma DecodesExactly(s: string, code: Code)
    ensures DecodeCode(s) == Ok(code) <==>
            exists before, after ::
              AllWhitespace(before) && AllWhitespace(after) && s == before + EncodeCode(code) + after
  {
    if DecodeCode(s) == Ok(code) {
      DecodeThenEncodeCode(s);
      var before, after := TrimParts(s);
      assert AllWhitespace(before) && AllWhitespace(after);
    }
    forall before, after |
      AllWhitespace(before) && AllWhitespace(after) && s == before + EncodeCode(code) + after
      ensures DecodeCode(s) == Ok(code)
    {
      EncodeThenDecodeCode(code, before, after);
    }
  }

  lemma {:induction false} SplitCounts(s: string, sep: char)
    ensures |Split(s, sep)| == multiset(s)[sep] + 1
    ensures sep !in Split(s, sep)[0]
  {
    if s != [] {
      SplitCounts(s[1..], sep);
      assert s == [s[0]] + s[1..];
    }
  }

  lemma SameFront(s: string, sep: char, a: string, b: string)
    requires a + [sep] <= s && b + [sep] <= s && sep !in a && sep !in b
    ensures a == b
  {
    assert (a + [sep])[|a|] == s[|a|] == sep && (b + [sep])[|b|] == s[|b|] == sep;
    assert a == s[..|a|] && b == s[..|b|];
  }

  lemma FirstPart(s: string, sep: char, first: string)
    requires sep !in first && |Split(s, sep)| > 1
    ensures Split(s, sep)[0] == first <==> first + [sep] <= s
  {
    SplitThenJoin(s, sep);
    SplitCounts(s, sep);
    var front := Split(s, sep)[0];
    assert front + [sep] <= s;
    if first + [sep] <= s {
      SameFront(s, sep, first, front);
    }
  }

  /** The shape is refused exactly when the trimmed text does not have three dots or does not open with
      `av1.`; a text of that shape can only fail in one of its fields. */
  lemma ShapeRefused(s: string)
    ensures DecodeCode(s) == Err(InvalidCode) <==> multiset(Trim(s))['.'] != 3 || !("av1." <= Trim(s))
  {
    SplitCounts(Trim(s), '.');
    if |Split(Trim(s), '.')| == 4 {
      FirstPart(Trim(s), '.', "av1");
      assert "av1" + ['.'] == "av1.";
    }
  }
}
