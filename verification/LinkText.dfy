/** Splitting a message body into plain text and links. Strings are JavaScript's: sequences of 16-bit
    code units, lone surrogates included. */
module LinkText {
  import opened Wrappers

  type CodeUnit = u: int | 0 <= u < 0x1_0000
  type Text = seq<CodeUnit>

  predicate Is(u: CodeUnit, c: char) {
    u == c as int
  }

  predicate IsAnyOf(u: CodeUnit, chars: string) {
    exists i :: 0 <= i < |chars| && Is(u, chars[i])
  }

  function Lower(u: CodeUnit): CodeUnit {
    if 'A' as int <= u <= 'Z' as int then u + 32 else u
  }

  /** \w */
  predicate IsWord(u: CodeUnit) {
    'a' as int <= Lower(u) <= 'z' as int || '0' as int <= u <= '9' as int || Is(u, '_')
  }

  /** \s */
  predicate IsSpace(u: CodeUnit) {
    9 <= u <= 13 || u in {0x20, 0xA0, 0x1680, 0x2028, 0x2029, 0x202F, 0x205F, 0x3000, 0xFEFF} || 0x2000 <= u <= 0x200A
  }

  // ---- The regular expression \bhttps?:\/\/[^\s<]+, case-insensitive ----

  predicate AtBoundary(body: Text, i: nat)
    requires i <= |body|
  {
    (i > 0 && IsWord(body[i - 1])) != (i < |body| && IsWord(body[i]))
  }

  predicate LiteralAt(body: Text, i: nat, lower: string) {
    i + |lower| <= |body| && forall k | 0 <= k < |lower| :: Is(Lower(body[i + k]), lower[k])
  }

  /** The end of `https?://` at `i`. */
  function SchemeEnd(body: Text, i: nat): (k: Option<nat>)
    ensures k.Some? ==> i + 7 <= k.value <= |body| && Is(body[k.value - 1], '/')
  {
    assert LiteralAt(body, i, "http://") ==> Is(Lower(body[i + 6]), "http://"[6]);
    assert LiteralAt(body, i, "https://") ==> Is(Lower(body[i + 7]), "https://"[7]);
    if LiteralAt(body, i, "http://") then Some(i + 7)
    else if LiteralAt(body, i, "https://") then Some(i + 8)
    else None
  }

  predicate IsUrlUnit(u: CodeUnit) {
    !IsSpace(u) && !Is(u, '<')
  }

  function RunEnd(body: Text, k: nat): (e: nat)
    requires k <= |body|
    ensures k <= e <= |body|
    ensures forall j | k <= j < e :: IsUrlUnit(body[j])
    ensures e < |body| ==> !IsUrlUnit(body[e])
    decreases |body| - k
  {
    if k < |body| && IsUrlUnit(body[k]) then RunEnd(body, k + 1) else k
  }

  /** The end of the match that begins at `i`, if one does. */
  function MatchEnd(body: Text, i: nat): (e: Option<nat>)
    requires i <= |body|
    ensures e.Some? ==> SchemeEnd(body, i).Some? && SchemeEnd(body, i).value < e.value <= |body|
  {
    if !AtBoundary(body, i) then None
    else match SchemeEnd(body, i)
      case None => None
      case Some(k) => if RunEnd(body, k) > k then Some(RunEnd(body, k)) else None
  }

  predicate AnyCaseAt(body: Text, i: nat, lower: string, upper: string)
    requires |lower| == |upper|
  {
    && i + |lower| <= |body|
    && forall k | 0 <= k < |lower| :: body[i + k] == lower[k] as int || body[i + k] == upper[k] as int
  }

  /** At `i`, not behind a word character, stands "http://" or "https://" in any case, and then something
      other than whitespace and `<`. */
  predicate BeginsUrl(body: Text, i: nat)
    requires i <= |body|
  {
    && (i > 0 ==> !IsWord(body[i - 1]))
    && (|| (AnyCaseAt(body, i, "http://", "HTTP://") && i + 7 < |body| && IsUrlUnit(body[i + 7]))
        || (AnyCaseAt(body, i, "https://", "HTTPS://") && i + 8 < |body| && IsUrlUnit(body[i + 8])))
  }

  predicate IsPair(l: char, u: char) {
    ('a' <= l <= 'z' && u as int == l as int - 32) || (u == l && !('A' <= l <= 'Z') && !('a' <= l <= 'z'))
  }

  lemma LiteralIsAnyCase(body: Text, i: nat, lower: string, upper: string)
    requires |lower| == |upper| && forall k | 0 <= k < |lower| :: IsPair(lower[k], upper[k])
    ensures LiteralAt(body, i, lower) <==> AnyCaseAt(body, i, lower, upper)
  {
    if i + |lower| <= |body| {
      forall k | 0 <= k < |lower|
        ensures Is(Lower(body[i + k]), lower[k]) <==>
                body[i + k] == lower[k] as int || body[i + k] == upper[k] as int
      {
        assert IsPair(lower[k], upper[k]);
      }
    }
  }

  /** The pattern matches exactly where a URL begins. */
  lemma MatchBegins(body: Text, i: nat)
    requires i <= |body|
    ensures MatchEnd(body, i).Some? <==> BeginsUrl(body, i)
  {
    LiteralIsAnyCase(body, i, "http://", "HTTP://");
    LiteralIsAnyCase(body, i, "https://", "HTTPS://");
    if LiteralAt(body, i, "http://") {
      assert Is(Lower(body[i]), "http://"[0]) && Is(Lower(body[i + 4]), "http://"[4]);
    }
    if LiteralAt(body, i, "https://") {
      assert Is(Lower(body[i]), "https://"[0]) && Is(Lower(body[i + 4]), "https://"[4]);
    }
  }

  datatype Match = Match(start: nat, end: nat)

  /** The leftmost match that begins at `from` or later. */
  function Search(body: Text, from: nat): (m: Option<Match>)
    ensures m.Some? ==>
              && from <= m.value.start <= |body|
              && MatchEnd(body, m.value.start) == Some(m.value.end)
              && (forall i | from <= i < m.value.start :: MatchEnd(body, i).None?)
    ensures m.None? ==> forall i | from <= i <= |body| :: MatchEnd(body, i).None?
    decreases |body| + 1 - from
  {
    if from > |body| then None
    else if MatchEnd(body, from).Some? then Some(Match(from, MatchEnd(body, from).value))
    else Search(body, from + 1)
  }

  // ---- Trimming ----

  function Count(s: Text, c: char): (n: nat)
    decreases s
  {
    if s == [] then 0
    else Count(s[..|s| - 1], c) + if Is(s[|s| - 1], c) then 1 else 0
  }

  predicate Trimmable(s: Text) {
    && s != []
    && var last := s[|s| - 1];
       || IsAnyOf(last, ".,;:!?")
       || (Is(last, ')') && Count(s, '(') < Count(s, ')'))
       || (Is(last, ']') && Count(s, '[') < Count(s, ']'))
       || Is(last, '"') || Is(last, '\'')
  }

  function Trim(s: Text): (t: Text)
    ensures t <= s && !Trimmable(t)
    decreases s
  {
    if Trimmable(s) then Trim(s[..|s| - 1]) else s
  }

  function Occurrences(s: seq<int>, c: char): nat {
    multiset(s)[c as int]
  }

  lemma {:induction false} CountIsOccurrences(s: Text, c: char)
    ensures Count(s, c) == Occurrences(s, c)
    decreases s
  {
    if s != [] {
      CountIsOccurrences(s[..|s| - 1], c);
      assert s == s[..|s| - 1] + [s[|s| - 1]];
    }
  }

  /** What a link does not end in: sentence punctuation, a quote, or a bracket closed more often than
      opened. */
  predicate EndsTrailing(s: Text) {
    && s != []
    && var last := s[|s| - 1];
       || last in {'.' as int, ',' as int, ';' as int, ':' as int, '!' as int, '?' as int, '"' as int, '\'' as int}
       || (last == ')' as int && Occurrences(s, '(') < Occurrences(s, ')'))
       || (last == ']' as int && Occurrences(s, '[') < Occurrences(s, ']'))
  }

  lemma TrimmableIsTrailing(s: Text)
    ensures Trimmable(s) <==> EndsTrailing(s)
  {
    if s != [] {
      CountIsOccurrences(s, '(');
      CountIsOccurrences(s, ')');
      CountIsOccurrences(s, '[');
      CountIsOccurrences(s, ']');
      PunctUnits(s[|s| - 1]);
    }
  }

  lemma PunctUnits(u: CodeUnit)
    ensures IsAnyOf(u, ".,;:!?") <==>
            u in {'.' as int, ',' as int, ';' as int, ':' as int, '!' as int, '?' as int}
  {
    var p := ".,;:!?";
    assert Is(u, p[0]) || Is(u, p[1]) || Is(u, p[2]) || Is(u, p[3]) || Is(u, p[4]) || Is(u, p[5]) ==> IsAnyOf(u, p);
  }

  /** Trimming goes on as long as it may and no longer. */
  predicate IsTrimmed(s: Text, t: Text) {
    t <= s && !EndsTrailing(t) && forall n | |t| < n <= |s| :: EndsTrailing(s[..n])
  }

  lemma {:induction false} TrimIsTrimmed(s: Text)
    ensures IsTrimmed(s, Trim(s))
    decreases s
  {
    TrimmableIsTrailing(s);
    TrimmableIsTrailing(Trim(s));
    if Trimmable(s) {
      var shorter := s[..|s| - 1];
      TrimIsTrimmed(shorter);
      forall n | |Trim(s)| < n <= |s| ensures EndsTrailing(s[..n]) {
        assert s[..n] == if n == |s| then s else shorter[..n];
      }
    } else {
      assert s[..|s|] == s;
    }
  }

  /** A slash stops the trimming. */
  lemma {:induction false} TrimKeepsSlash(s: Text, n: nat)
    requires 0 < n <= |s| && Is(s[n - 1], '/')
    ensures n <= |Trim(s)|
    decreases s
  {
    if Trimmable(s) {
      assert n < |s|;
      TrimKeepsSlash(s[..|s| - 1], n);
    }
  }

  /** Where the link taken out of a match ends. */
  function LinkEnd(body: Text, m: Match): (end: nat)
    requires m.start <= |body| && MatchEnd(body, m.start) == Some(m.end)
    ensures m.start + 7 <= end <= m.end
    ensures body[m.start..end] == Trim(body[m.start..m.end])
  {
    var k := SchemeEnd(body, m.start).value;
    TrimKeepsSlash(body[m.start..m.end], k - m.start);
    m.start + |Trim(body[m.start..m.end])|
  }

  // ---- The spans of the links ----

  /** Spans in order, apart from one another and inside the body from `from` on. */
  predicate Ordered(spans: seq<Match>, from: nat, n: nat)
    decreases spans
  {
    if spans == [] then from <= n
    else from <= spans[0].start < spans[0].end <= n && Ordered(spans[1..], spans[0].end, n)
  }

  function Spans(body: Text, from: nat): (spans: seq<Match>)
    requires from <= |body|
    ensures Ordered(spans, from, |body|)
    decreases |body| - from
  {
    match Search(body, from)
    case None => []
    case Some(m) => [Match(m.start, LinkEnd(body, m))] + Spans(body, LinkEnd(body, m))
  }

  // ---- Segments ----

  datatype Segment = Segment(text: Text, href: Option<Text>)

  function Plain(text: Text): Segment {
    Segment(text, None)
  }

  function Link(url: Text): Segment {
    Segment(url, Some(url))
  }

  function PlainUnlessEmpty(text: Text): seq<Segment> {
    if text == [] then [] else [Plain(text)]
  }

  function Segments(body: Text, from: nat, spans: seq<Match>): seq<Segment>
    requires Ordered(spans, from, |body|)
    decreases spans
  {
    if spans == [] then PlainUnlessEmpty(body[from..])
    else
      PlainUnlessEmpty(body[from..spans[0].start])
      + [Link(body[spans[0].start..spans[0].end])]
      + Segments(body, spans[0].end, spans[1..])
  }

  function LinkifySpec(body: Text): seq<Segment> {
    var segments := Segments(body, 0, Spans(body, 0));
    if segments == [] then [Plain(body)] else segments
  }

  function TextOf(segments: seq<Segment>): Text
    decreases segments
  {
    if segments == [] then [] else segments[0].text + TextOf(segments[1..])
  }

  lemma {:induction false} TextOfConcat(a: seq<Segment>, b: seq<Segment>)
    ensures TextOf(a + b) == TextOf(a) + TextOf(b)
    decreases a
  {
    if a == [] {
      assert a + b == b;
    } else {
      assert (a + b)[1..] == a[1..] + b;
      TextOfConcat(a[1..], b);
    }
  }

  lemma TextOfOne(s: Segment)
    ensures TextOf([s]) == s.text
  {
    assert [s][1..] == [];
  }

  lemma TextOfFront(body: Text, from: nat, span: Match)
    requires from <= span.start <= span.end <= |body|
    ensures TextOf(PlainUnlessEmpty(body[from..span.start])) == body[from..span.start]
    ensures TextOf(PlainUnlessEmpty(body[from..span.start]) + [Link(body[span.start..span.end])])
         == body[from..span.end]
  {
    var plain, url := body[from..span.start], body[span.start..span.end];
    TextOfOne(Plain(plain));
    TextOfOne(Link(url));
    TextOfConcat(PlainUnlessEmpty(plain), [Link(url)]);
    assert plain + url == body[from..span.end];
  }

  lemma TextOfStep(body: Text, from: nat, span: Match, rest: seq<Segment>)
    requires from <= span.start <= span.end <= |body|
    requires TextOf(rest) == body[span.end..]
    ensures TextOf(PlainUnlessEmpty(body[from..span.start]) + [Link(body[span.start..span.end])] + rest) == body[from..]
  {
    TextOfFront(body, from, span);
    TextOfConcat(PlainUnlessEmpty(body[from..span.start]) + [Link(body[span.start..span.end])], rest);
    assert body[from..span.end] + body[span.end..] == body[from..];
  }

  lemma {:induction false} SegmentsCover(body: Text, from: nat, spans: seq<Match>)
    requires Ordered(spans, from, |body|)
    ensures TextOf(Segments(body, from, spans)) == body[from..]
    decreases spans
  {
    if spans == [] {
      TextOfOne(Plain(body[from..]));
    } else {
      SegmentsCover(body, spans[0].end, spans[1..]);
      TextOfStep(body, from, spans[0], Segments(body, spans[0].end, spans[1..]));
    }
  }

  /** Nothing of the body is lost, doubled or reordered, and there is always a segment. */
  lemma LinkifyKeepsText(body: Text)
    ensures TextOf(LinkifySpec(body)) == body && LinkifySpec(body) != []
  {
    SegmentsCover(body, 0, Spans(body, 0));
    TextOfOne(Plain(body));
  }

  // ---- What a link looks like ----

  predicate GoodUrl(url: Text) {
    && (LiteralAt(url, 0, "http://") || LiteralAt(url, 0, "https://"))
    && (forall i | 0 <= i < |url| :: IsUrlUnit(url[i]))
    && !Trimmable(url)
  }

  lemma LinkIsGood(body: Text, m: Match)
    requires m.start <= |body| && MatchEnd(body, m.start) == Some(m.end)
    ensures GoodUrl(body[m.start..LinkEnd(body, m)])
  {
    var end := LinkEnd(body, m);
    var url := body[m.start..end];
    var k := SchemeEnd(body, m.start).value;
    TrimKeepsSlash(body[m.start..m.end], k - m.start);
    SchemeUnits(body, m.start);
    MatchUnits(body, m);
    assert forall i | 0 <= i < |url| :: url[i] == body[m.start + i];
  }

  lemma MatchUnits(body: Text, m: Match)
    requires m.start <= |body| && MatchEnd(body, m.start) == Some(m.end)
    ensures forall j | m.start <= j < m.end :: IsUrlUnit(body[j])
  {
    SchemeUnits(body, m.start);
  }

  lemma SchemeUnits(body: Text, i: nat)
    requires SchemeEnd(body, i).Some?
    ensures forall j | i <= j < SchemeEnd(body, i).value :: IsUrlUnit(body[j])
  {
    var lower := if LiteralAt(body, i, "http://") then "http://" else "https://";
    forall j | i <= j < SchemeEnd(body, i).value ensures IsUrlUnit(body[j]) {
      assert Is(Lower(body[i + (j - i)]), lower[j - i]);
      assert lower[j - i] == 'h' || lower[j - i] == 't' || lower[j - i] == 'p' || lower[j - i] == 's'
          || lower[j - i] == ':' || lower[j - i] == '/';
    }
  }

  predicate AllGood(body: Text, spans: seq<Match>) {
    forall i | 0 <= i < |spans| ::
      spans[i].start <= spans[i].end <= |body| && GoodUrl(body[spans[i].start..spans[i].end])
  }

  lemma {:induction false} SpansAreGood(body: Text, from: nat)
    requires from <= |body|
    ensures AllGood(body, Spans(body, from))
    decreases |body| - from
  {
    match Search(body, from)
    case None =>
    case Some(m) =>
      LinkIsGood(body, m);
      SpansAreGood(body, LinkEnd(body, m));
      AllGoodFront(body, Match(m.start, LinkEnd(body, m)), Spans(body, LinkEnd(body, m)));
  }

  lemma AllGoodFront(body: Text, span: Match, rest: seq<Match>)
    requires span.start <= span.end <= |body| && GoodUrl(body[span.start..span.end]) && AllGood(body, rest)
    ensures AllGood(body, [span] + rest)
  {
  }

  predicate GoodSegment(s: Segment) {
    s.href.Some? ==> s.href.value == s.text && GoodUrl(s.text)
  }

  lemma {:induction false} SegmentsAreGood(body: Text, from: nat, spans: seq<Match>)
    requires Ordered(spans, from, |body|) && AllGood(body, spans)
    ensures forall s | s in Segments(body, from, spans) :: GoodSegment(s)
    decreases spans
  {
    if spans != [] {
      SegmentsAreGood(body, spans[0].end, spans[1..]);
      assert GoodSegment(Link(body[spans[0].start..spans[0].end]));
    }
  }

  /** A link is a whole, untrimmable URL: it opens with the scheme and has no whitespace and no `<`. */
  lemma LinksAreGood(body: Text)
    ensures forall s | s in LinkifySpec(body) :: GoodSegment(s)
  {
    SpansAreGood(body, 0);
    SegmentsAreGood(body, 0, Spans(body, 0));
  }

  // ---- No URL is left in plain text ----

  function Offset(segments: seq<Segment>, k: nat): nat
    requires k <= |segments|
  {
    |TextOf(segments[..k])|
  }

  /** Segment k of the text that begins at `from` is a link, and its span holds position i. */
  predicate LinkedAt(segments: seq<Segment>, from: nat, k: nat, i: nat)
    requires k < |segments|
  {
    segments[k].href.Some? && from + Offset(segments, k) <= i < from + Offset(segments, k + 1)
  }

  lemma OffsetAfter(front: seq<Segment>, rest: seq<Segment>, k: nat)
    requires k <= |rest|
    ensures Offset(front + rest, |front| + k) == |TextOf(front)| + Offset(rest, k)
  {
    assert (front + rest)[..|front| + k] == front + rest[..k];
    TextOfConcat(front, rest[..k]);
  }

  lemma {:induction false} SpanHolds(body: Text, from: nat, i: nat) returns (n: nat)
    requires from <= i <= |body| && MatchEnd(body, i).Some?
    ensures n < |Spans(body, from)| && Spans(body, from)[n].start <= i < Spans(body, from)[n].end
    decreases |body| - from
  {
    var m := Search(body, from).value;
    var end := LinkEnd(body, m);
    if i < end {
      n := 0;
    } else {
      n := SpanHolds(body, end, i);
      n := n + 1;
    }
  }

  lemma {:induction false} SpanIsLinked(body: Text, from: nat, spans: seq<Match>, n: nat, i: nat) returns (k: nat)
    requires Ordered(spans, from, |body|)
    requires n < |spans| && spans[n].start <= i < spans[n].end
    ensures k < |Segments(body, from, spans)| && LinkedAt(Segments(body, from, spans), from, k, i)
    decreases spans
  {
    var plain := PlainUnlessEmpty(body[from..spans[0].start]);
    var front := plain + [Link(body[spans[0].start..spans[0].end])];
    var rest := Segments(body, spans[0].end, spans[1..]);
    TextOfFront(body, from, spans[0]);
    if n == 0 {
      k := |plain|;
      assert (front + rest)[..k] == plain && (front + rest)[..k + 1] == front;
    } else {
      var k' := SpanIsLinked(body, spans[0].end, spans[1..], n - 1, i);
      k := |front| + k';
      OffsetAfter(front, rest, k');
      OffsetAfter(front, rest, k' + 1);
    }
  }

  /** Wherever a URL begins in the body, a link covers it. */
  lemma NoUrlIsMissed(body: Text, i: nat)
    requires i <= |body| && BeginsUrl(body, i)
    ensures exists k :: 0 <= k < |LinkifySpec(body)| && LinkedAt(LinkifySpec(body), 0, k, i)
  {
    MatchBegins(body, i);
    var n := SpanHolds(body, 0, i);
    var k := SpanIsLinked(body, 0, Spans(body, 0), n, i);
    assert LinkedAt(LinkifySpec(body), 0, k, i);
  }

  // ---- Every link is a URL of the body, whole but for its trailing punctuation ----

  /** Nothing but URL units from `start` to `e`, and `e` is as far as that goes. */
  predicate IsRun(body: Text, start: nat, e: nat) {
    && start <= e <= |body| && (forall j | start <= j < e :: IsUrlUnit(body[j]))
    && (e < |body| ==> !IsUrlUnit(body[e]))
  }

  predicate IsLink(body: Text, start: nat, end: nat) {
    && start < end <= |body| && BeginsUrl(body, start)
    && exists e | end <= e <= |body| :: IsRun(body, start, e) && IsTrimmed(body[start..e], body[start..end])
  }

  lemma LinkEndIsLink(body: Text, m: Match)
    requires m.start <= |body| && MatchEnd(body, m.start) == Some(m.end)
    ensures IsLink(body, m.start, LinkEnd(body, m))
  {
    MatchBegins(body, m.start);
    MatchUnits(body, m);
    TrimIsTrimmed(body[m.start..m.end]);
    assert IsRun(body, m.start, m.end);
  }

  predicate AllLinks(body: Text, spans: seq<Match>) {
    forall i | 0 <= i < |spans| :: IsLink(body, spans[i].start, spans[i].end)
  }

  lemma {:induction false} SpansAreLinks(body: Text, from: nat)
    requires from <= |body|
    ensures AllLinks(body, Spans(body, from))
    decreases |body| - from
  {
    match Search(body, from)
    case None =>
    case Some(m) =>
      LinkEndIsLink(body, m);
      SpansAreLinks(body, LinkEnd(body, m));
      AllLinksFront(body, Match(m.start, LinkEnd(body, m)), Spans(body, LinkEnd(body, m)));
  }

  lemma AllLinksFront(body: Text, span: Match, rest: seq<Match>)
    requires IsLink(body, span.start, span.end) && AllLinks(body, rest)
    ensures AllLinks(body, [span] + rest)
  {
  }

  lemma {:induction false} LinkIsSpan(body: Text, from: nat, spans: seq<Match>, k: nat) returns (n: nat)
    requires Ordered(spans, from, |body|)
    requires k < |Segments(body, from, spans)| && Segments(body, from, spans)[k].href.Some?
    ensures n < |spans|
    ensures var segments := Segments(body, from, spans);
            && spans[n] == Match(from + Offset(segments, k), from + Offset(segments, k + 1))
            && segments[k].href.value == segments[k].text
    decreases spans
  {
    var plain := PlainUnlessEmpty(body[from..spans[0].start]);
    var front := plain + [Link(body[spans[0].start..spans[0].end])];
    var rest := Segments(body, spans[0].end, spans[1..]);
    TextOfFront(body, from, spans[0]);
    if k < |front| {
      n := 0;
      assert (front + rest)[..k] == plain && (front + rest)[..k + 1] == front;
    } else {
      n := LinkIsSpan(body, spans[0].end, spans[1..], k - |front|);
      n := n + 1;
      OffsetAfter(front, rest, k - |front|);
      OffsetAfter(front, rest, k - |front| + 1);
    }
  }

  lemma SegmentIsLink(body: Text, spans: seq<Match>, k: nat)
    requires Ordered(spans, 0, |body|) && AllLinks(body, spans)
    requires k < |Segments(body, 0, spans)| && Segments(body, 0, spans)[k].href.Some?
    ensures var segments := Segments(body, 0, spans);
            && IsLink(body, Offset(segments, k), Offset(segments, k + 1))
            && segments[k].href == Some(segments[k].text)
  {
    var n := LinkIsSpan(body, 0, spans, k);
    var segments := Segments(body, 0, spans);
    SpanIsLink(body, spans, n, Match(Offset(segments, k), Offset(segments, k + 1)));
  }

  lemma SpanIsLink(body: Text, spans: seq<Match>, n: nat, m: Match)
    requires AllLinks(body, spans) && n < |spans| && spans[n] == m
    ensures IsLink(body, m.start, m.end)
  {
  }

  /** No link but a URL of the body, running to whitespace or `<` and trimmed as far as it may be. */
  lemma LinksAreUrls(body: Text, k: nat)
    requires k < |LinkifySpec(body)| && LinkifySpec(body)[k].href.Some?
    ensures var segments := LinkifySpec(body);
            && IsLink(body, Offset(segments, k), Offset(segments, k + 1))
            && body[Offset(segments, k)..Offset(segments, k + 1)] == segments[k].text
            && segments[k].href == Some(segments[k].text)
  {
    SpansAreLinks(body, 0);
    SegmentIsLink(body, Spans(body, 0), k);
    SegmentsCover(body, 0, Spans(body, 0));
    TextAt(Segments(body, 0, Spans(body, 0)), k);
    assert body[0..] == body;
  }

  lemma TextAt(segments: seq<Segment>, k: nat)
    requires k < |segments|
    ensures Offset(segments, k) <= Offset(segments, k + 1) <= |TextOf(segments)|
    ensures TextOf(segments)[Offset(segments, k)..Offset(segments, k + 1)] == segments[k].text
  {
    var before, after := segments[..k], segments[k + 1..];
    assert segments[..k + 1] == before + [segments[k]] && segments == before + [segments[k]] + after;
    TextOfConcat(before, [segments[k]]);
    TextOfConcat(before + [segments[k]], after);
    TextOfOne(segments[k]);
  }

  // ---- The preview's URL ----

  function FirstLink(segments: seq<Segment>): Option<Text>
    decreases segments
  {
    if segments == [] then None
    else if segments[0].href.Some? then segments[0].href
    else FirstLink(segments[1..])
  }

  function FirstUrlSpec(body: Text): Option<Text> {
    match Search(body, 0)
    case None => None
    case Some(m) => Some(body[m.start..LinkEnd(body, m)])
  }

  lemma FirstOfSegments(body: Text, spans: seq<Match>)
    requires Ordered(spans, 0, |body|)
    ensures FirstLink(Segments(body, 0, spans))
         == if spans == [] then None else Some(body[spans[0].start..spans[0].end])
  {
    if spans == [] {
      assert [Plain(body[0..])][1..] == [];
    } else {
      var link := Link(body[spans[0].start..spans[0].end]);
      var rest := Segments(body, spans[0].end, spans[1..]);
      var segments := Segments(body, 0, spans);
      assert segments[if spans[0].start > 0 then 1 else 0] == link;
    }
  }

  /** The URL that gets a preview is the first one that is shown as a link. */
  lemma FirstUrlIsFirstLink(body: Text)
    ensures FirstUrlSpec(body) == FirstLink(LinkifySpec(body))
  {
    FirstOfSegments(body, Spans(body, 0));
    assert [Plain(body)][1..] == [];
  }

  // ---- The code ----

  method CountChar(s: Text, c: char) returns (n: nat)
    ensures n == Count(s, c) == Occurrences(s, c)
  {
    n := 0;
    for i := 0 to |s|
      invariant n == Count(s[..i], c)
    {
      assert s[..i + 1][..i] == s[..i];
      if Is(s[i], c) {
        n := n + 1;
      }
    }
    assert s[..|s|] == s;
    CountIsOccurrences(s, c);
  }

  method TrimTrailingPunct(url: Text) returns (s: Text)
    ensures s == Trim(url) && IsTrimmed(url, s)
  {
    TrimIsTrimmed(url);
    s := url;
    while s != []
      invariant Trim(s) == Trim(url)
      decreases |s|
    {
      var ch := s[|s| - 1];
      if IsAnyOf(ch, ".,;:!?") {
        s := s[..|s| - 1];
        continue;
      }
      var open := CountChar(s, '(');
      var close := CountChar(s, ')');
      if Is(ch, ')') && open < close {
        s := s[..|s| - 1];
        continue;
      }
      open := CountChar(s, '[');
      close := CountChar(s, ']');
      if Is(ch, ']') && open < close {
        s := s[..|s| - 1];
        continue;
      }
      if Is(ch, '"') || Is(ch, '\'') {
        s := s[..|s| - 1];
        continue;
      }
      break;
    }
  }

  /** The segments from `from` on, of a body already split up to there. */
  function Continued(done: seq<Segment>, body: Text, from: nat): seq<Segment>
    requires from <= |body|
  {
    done + Segments(body, from, Spans(body, from))
  }

  lemma Regrouped(a: seq<Segment>, b: seq<Segment>, c: seq<Segment>, d: seq<Segment>)
    ensures a + (b + c + d) == a + b + c + d
  {
  }

  lemma ContinuedStep(done: seq<Segment>, body: Text, from: nat, m: Match)
    requires from <= |body| && Search(body, from) == Some(m)
    ensures Continued(done, body, from)
         == Continued(done + PlainUnlessEmpty(body[from..m.start]) + [Link(body[m.start..LinkEnd(body, m)])],
                      body, LinkEnd(body, m))
  {
    var span := Match(m.start, LinkEnd(body, m));
    var later := Spans(body, span.end);
    assert Spans(body, from) == [span] + later;
    assert ([span] + later)[1..] == later;
    Regrouped(done, PlainUnlessEmpty(body[from..span.start]), [Link(body[span.start..span.end])],
              Segments(body, span.end, later));
  }

  /** The global regular expression with its `lastIndex`, which calls leave behind for one another. */
  class UrlRegex {
    var lastIndex: nat

    constructor ()
      ensures lastIndex == 0
    {
      lastIndex := 0;
    }

    method Exec(body: Text) returns (m: Option<Match>)
      modifies this
      ensures m == Search(body, old(lastIndex))
      ensures lastIndex == if m.Some? then m.value.end else 0
    {
      m := Search(body, lastIndex);
      lastIndex := if m.Some? then m.value.end else 0;
    }

    /** The result does not depend on the `lastIndex` an earlier call left. */
    method Linkify(body: Text) returns (segments: seq<Segment>)
      modifies this
      ensures segments == LinkifySpec(body)
    {
      segments := [];
      var last := 0;
      lastIndex := 0;
      var m := Exec(body);
      while m.Some?
        invariant last <= |body|
        invariant m == Search(body, last)
        invariant Continued(segments, body, last) == Continued([], body, 0)
        decreases |body| - last
      {
        var start := m.value.start;
        var url := TrimTrailingPunct(body[start..m.value.end]);
        var end := start + |url|;
        assert end == LinkEnd(body, m.value) && url == body[start..end];
        ContinuedStep(segments, body, last, m.value);
        ghost var plain := PlainUnlessEmpty(body[last..start]);
        ghost var before := segments;
        if start > last {
          segments := segments + [Plain(body[last..start])];
        }
        assert segments == before + plain;
        segments := segments + [Link(url)];
        last := end;
        lastIndex := end;
        m := Exec(body);
      }
      assert Spans(body, last) == [];
      assert Continued(segments, body, last) == segments + PlainUnlessEmpty(body[last..]);
      assert Continued([], body, 0) == Segments(body, 0, Spans(body, 0));
      if last < |body| {
        segments := segments + [Plain(body[last..])];
      }
      if |segments| == 0 {
        segments := segments + [Plain(body)];
      }
    }

    method FirstUrl(body: Text) returns (url: Option<Text>)
      modifies this
      ensures url == FirstUrlSpec(body)
    {
      lastIndex := 0;
      var m := Exec(body);
      if m.None? {
        return None;
      }
      var trimmed := TrimTrailingPunct(body[m.value.start..m.value.end]);
      return Some(trimmed);
    }
  }
}
