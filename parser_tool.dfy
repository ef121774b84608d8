/** The `json_output_parser` tool: `json.dumps({'response': response, 'graph_id': graph_id})`
    with Python's default settings. Strings are written as RFC 8259 section 7 literals with
    `ensure_ascii`: every character outside printable ASCII is written as `\uXXXX` in lower-case
    hexadecimal, characters beyond the Basic Multilingual Plane as a UTF-16 surrogate pair, and
    members are separated by ", " with ": " after each name. */
module ParserTool {
  import opened Common
  import opened JsonOutput

  predicate IsPrintableAscii(c: char)
  {
    ' ' <= c <= '~'
  }

  function HexDigit(d: nat): (c: char)
    requires d < 16
    ensures HexValue(c) == Some(d)
    ensures '0' <= c <= '9' || 'a' <= c <= 'f'
  {
    if d < 10 then ('0' as int + d) as char else ('a' as int + d - 10) as char
  }

  /** `'{0:04x}'.format(n)`. */
  function Hex4(n: nat): (h: string)
    requires n < 0x10000
    ensures |h| == 4 && Hex4Value(h) == Some(n)
    ensures forall i :: 0 <= i < 4 ==> '0' <= h[i] <= '9' || 'a' <= h[i] <= 'f'
  {
    var low := n / 16;
    var high := low / 16;
    [HexDigit(high / 16), HexDigit(high % 16), HexDigit(low % 16), HexDigit(n % 16)]
  }

  /** `\uXXXX` for one UTF-16 code unit. */
  function UnicodeEscape(n: nat): (e: string)
    requires n < 0x10000
    ensures |e| == 6 && e[0] == '\\' && e[1] == 'u' && e[2..] == Hex4(n)
  {
    ['\\', 'u'] + Hex4(n)
  }

  /** The high surrogate of a character beyond the Basic Multilingual Plane. */
  function HighSurrogate(c: char): (u: nat)
    requires c as int >= 0x10000
    ensures IsHighSurrogate(u)
  {
    0xD800 + (c as int - 0x10000) / 0x400
  }

  function LowSurrogate(c: char): (u: nat)
    requires c as int >= 0x10000
    ensures IsLowSurrogate(u)
  {
    0xDC00 + (c as int - 0x10000) % 0x400
  }

  lemma SurrogatesCombine(c: char)
    requires c as int >= 0x10000
    ensures CombineSurrogates(HighSurrogate(c), LowSurrogate(c)) == c as int
  {
  }

  /** The characters `json.dumps` escapes with a backslash and one letter. */
  predicate IsShortEscaped(c: char)
  {
    c == '"' || c == '\\' || c == '\n' || c == '\r' || c == '\t' || c == 8 as char || c == 12 as char
  }

  function ShortEscapeLetter(c: char): (letter: char)
    requires IsShortEscaped(c)
    ensures ShortEscape(letter) == Some(c)
    ensures IsPrintableAscii(letter) && letter != 'j'
  {
    if c == '"' then '"'
    else if c == '\\' then '\\'
    else if c == '\n' then 'n'
    else if c == '\r' then 'r'
    else if c == '\t' then 't'
    else if c == 8 as char then 'b'
    else 'f'
  }

  /** The text `json.dumps` writes for one character of a string. */
  function EscapeChar(c: char): string
  {
    if IsShortEscaped(c) then ['\\', ShortEscapeLetter(c)]
    else if IsPrintableAscii(c) then [c]
    else if c as int < 0x10000 then UnicodeEscape(c as int)
    else UnicodeEscape(HighSurrogate(c)) + UnicodeEscape(LowSurrogate(c))
  }

  /** The characters of a string literal, between its quotes. */
  function Escape(s: string): string
  {
    if s == [] then [] else EscapeChar(s[0]) + Escape(s[1..])
  }

  function Quoted(s: string): string
  {
    "\"" + Escape(s) + "\""
  }

  /** One `"name": "value"` member. */
  function Member(name: string, value: string): string
  {
    Quoted(name) + ": " + Quoted(value)
  }

  /** An object with two members, written with the default separators. */
  function TwoMemberObject(n1: string, v1: string, n2: string, v2: string): string
  {
    "{" + Member(n1, v1) + ", " + Member(n2, v2) + "}"
  }

  /** The tool itself; `graph_id` defaults to the empty string. */
  function JsonOutputParser(response: string, graphId: string := ""): string
  {
    TwoMemberObject(ResponseField, response, GraphIdField, graphId)
  }

  lemma PlainCharReadsBack(c: char, t: string)
    requires IsPrintableAscii(c) && c != '"' && c != '\\'
    ensures ParseStringBody([c] + t) == Prepend(c, ParseStringBody(t))
  {
    assert ([c] + t)[1..] == t;
  }

  lemma ShortEscapeReadsBack(c: char, t: string)
    requires IsShortEscaped(c)
    ensures ParseStringBody(EscapeChar(c) + t) == Prepend(c, ParseStringBody(t))
  {
    var s := EscapeChar(c) + t;
    assert s[0] == '\\' && s[1..] == [ShortEscapeLetter(c)] + t;
  }

  /** A `\u` escape whose code units `x` read as `c` decodes to `c`. */
  lemma UnicodeEscapeStep(x: string, c: char, t: string)
    requires ParseUnicodeEscape(x) == Some((c, t))
    ensures ParseStringBody(['\\', 'u'] + x) == Prepend(c, ParseStringBody(t))
  {
    var s := ['\\', 'u'] + x;
    assert s[1..] == ['u'] + x;
    assert s[1..][1..] == x;
  }

  lemma SingleUnitParses(h: string, n: nat, t: string)
    requires |h| == 4 && Hex4Value(h) == Some(n)
    requires !IsHighSurrogate(n) && !IsLowSurrogate(n)
    ensures ParseUnicodeEscape(h + t) == Some((n as char, t))
  {
    var u := h + t;
    assert u[..4] == h && u[4..] == t;
  }

  lemma PairUnitsParse(h1: string, h2: string, t: string, hi: nat, lo: nat)
    requires |h1| == 4 && |h2| == 4 && Hex4Value(h1) == Some(hi) && Hex4Value(h2) == Some(lo)
    requires IsHighSurrogate(hi) && IsLowSurrogate(lo)
    ensures ParseUnicodeEscape(h1 + ['\\', 'u'] + h2 + t) == Some((CombineSurrogates(hi, lo) as char, t))
  {
    var u := h1 + ['\\', 'u'] + h2 + t;
    assert u[..4] == h1 && u[4] == '\\' && u[5] == 'u';
    assert u[6..10] == h2 && u[10..] == t;
  }

  lemma BmpEscapeReadsBack(c: char, t: string)
    requires !IsPrintableAscii(c) && !IsShortEscaped(c) && c as int < 0x10000
    ensures ParseStringBody(EscapeChar(c) + t) == Prepend(c, ParseStringBody(t))
  {
    var h := Hex4(c as int);
    assert EscapeChar(c) + t == ['\\', 'u'] + (h + t);
    SingleUnitParses(h, c as int, t);
    UnicodeEscapeStep(h + t, c, t);
  }

  lemma RegroupPair(h1: string, h2: string, t: string)
    ensures ['\\', 'u'] + h1 + (['\\', 'u'] + h2) + t == ['\\', 'u'] + (h1 + ['\\', 'u'] + h2 + t)
  {
  }

  lemma SurrogatePairReadsBack(c: char, t: string)
    requires c as int >= 0x10000
    ensures ParseStringBody(EscapeChar(c) + t) == Prepend(c, ParseStringBody(t))
  {
    var hi, lo := HighSurrogate(c), LowSurrogate(c);
    var h1, h2 := Hex4(hi), Hex4(lo);
    assert EscapeChar(c) == ['\\', 'u'] + h1 + (['\\', 'u'] + h2);
    RegroupPair(h1, h2, t);
    PairUnitsParse(h1, h2, t, hi, lo);
    SurrogatesCombine(c);
    UnicodeEscapeStep(h1 + ['\\', 'u'] + h2 + t, c, t);
  }

  /** Reading back the text written for one character yields that character. */
  lemma EscapedCharReadsBack(c: char, t: string)
    ensures ParseStringBody(EscapeChar(c) + t) == Prepend(c, ParseStringBody(t))
  {
    if IsShortEscaped(c) {
      ShortEscapeReadsBack(c, t);
    } else if IsPrintableAscii(c) {
      PlainCharReadsBack(c, t);
    } else if c as int < 0x10000 {
      BmpEscapeReadsBack(c, t);
    } else {
      SurrogatePairReadsBack(c, t);
    }
  }

  /** A string literal written by `json.dumps` reads back as the original string, and
      reading stops right after its closing quote. */
  lemma {:induction false} EscapedStringReadsBack(s: string, t: string)
    ensures ParseStringBody(Escape(s) + "\"" + t) == Some((s, t))
    decreases |s|
  {
    if s == [] {
      assert Escape(s) + "\"" + t == ['"'] + t;
    } else {
      assert Escape(s) + "\"" + t == EscapeChar(s[0]) + (Escape(s[1..]) + "\"" + t);
      EscapedCharReadsBack(s[0], Escape(s[1..]) + "\"" + t);
      EscapedStringReadsBack(s[1..], t);
      assert [s[0]] + s[1..] == s;
    }
  }

  lemma QuotedReadsBack(s: string, t: string)
    ensures ParseString(Quoted(s) + t) == Some((s, t))
  {
    var q := Quoted(s) + t;
    assert q[0] == '"' && q[1..] == Escape(s) + "\"" + t;
    EscapedStringReadsBack(s, t);
  }

  lemma LeadingSpaceSkipped(x: string)
    ensures ParseString(" " + x) == ParseString(x)
  {
    assert (" " + x)[1..] == x;
  }

  lemma MemberAfterSpace(x: string)
    ensures ParseMember(" " + x) == ParseMember(x)
  {
    LeadingSpaceSkipped(x);
  }

  /** A member is read as its name, the colon, then its value. */
  lemma MemberStep(s: string, name: string, afterName: string, value: string, rest: string)
    requires ParseString(s) == Some((name, afterName))
    requires SkipWs(afterName) == afterName && afterName != [] && afterName[0] == ':'
    requires ParseString(afterName[1..]) == Some((value, rest))
    ensures ParseMember(s) == Some((name, value, rest))
  {
  }

  lemma ColonThenValue(q: string, value: string, rest: string)
    requires ParseString(q + rest) == Some((value, rest))
    ensures ParseString((": " + q + rest)[1..]) == Some((value, rest))
  {
    assert (": " + q + rest)[1..] == " " + (q + rest);
    LeadingSpaceSkipped(q + rest);
  }

  lemma MemberOfLiterals(q1: string, q2: string, name: string, value: string, rest: string)
    requires ParseString(q1 + (": " + q2 + rest)) == Some((name, ": " + q2 + rest))
    requires ParseString(q2 + rest) == Some((value, rest))
    ensures ParseMember(q1 + ": " + q2 + rest) == Some((name, value, rest))
  {
    var afterName := ": " + q2 + rest;
    assert q1 + ": " + q2 + rest == q1 + afterName;
    NoLeadingWs(afterName);
    ColonThenValue(q2, value, rest);
    MemberStep(q1 + afterName, name, afterName, value, rest);
  }

  /** One `"name": "value"` member followed by `rest`. */
  lemma MemberReadsBack(name: string, value: string, rest: string)
    ensures ParseMember(Member(name, value) + rest) == Some((name, value, rest))
  {
    QuotedReadsBack(name, ": " + Quoted(value) + rest);
    QuotedReadsBack(value, rest);
    MemberOfLiterals(Quoted(name), Quoted(value), name, value, rest);
  }

  lemma NoLeadingWs(s: string)
    requires s != [] && !IsWs(s[0])
    ensures SkipWs(s) == s
  {
  }

  lemma MembersContinue(s: string, acc: map<string, string>, name: string, value: string, rest: string)
    requires ParseMember(s) == Some((name, value, rest))
    requires SkipWs(rest) == rest && rest != [] && rest[0] == ','
    ensures ParseMembers(s, acc) == ParseMembers(rest[1..], acc[name := value])
  {
  }

  lemma MembersEnd(s: string, acc: map<string, string>, name: string, value: string, rest: string)
    requires ParseMember(s) == Some((name, value, rest))
    requires SkipWs(rest) == rest && rest != [] && rest[0] == '}'
    ensures ParseMembers(s, acc) == Some((acc[name := value], rest[1..]))
  {
  }

  lemma InnerMemberStep(m: string, t: string, acc: map<string, string>, name: string, value: string)
    requires ParseMember(m + ("," + t)) == Some((name, value, "," + t))
    ensures ParseMembers(m + ("," + t), acc) == ParseMembers(t, acc[name := value])
  {
    NoLeadingWs("," + t);
    assert ("," + t)[1..] == t;
    MembersContinue(m + ("," + t), acc, name, value, "," + t);
  }

  /** A member followed by a comma: reading goes on after the comma. */
  lemma InnerMemberReadsBack(name: string, value: string, t: string, acc: map<string, string>)
    ensures ParseMembers(Member(name, value) + ("," + t), acc) == ParseMembers(t, acc[name := value])
  {
    MemberReadsBack(name, value, "," + t);
    InnerMemberStep(Member(name, value), t, acc, name, value);
  }

  lemma LastMemberStep(s: string, close: string, acc: map<string, string>, name: string, value: string)
    requires close != [] && close[0] == '}'
    requires ParseMember(s) == Some((name, value, close))
    ensures ParseMembers(s, acc) == Some((acc[name := value], close[1..]))
  {
    NoLeadingWs(close);
    MembersEnd(s, acc, name, value, close);
  }

  /** The last member, after the space of the separator, and the closing brace. */
  lemma LastMemberReadsBack(name: string, value: string, acc: map<string, string>, tail: string)
    ensures ParseMembers(" " + (Member(name, value) + ("}" + tail)), acc) == Some((acc[name := value], tail))
  {
    var close := "}" + tail;
    assert close[1..] == tail;
    MemberReadsBack(name, value, close);
    MemberAfterSpace(Member(name, value) + close);
    LastMemberStep(" " + (Member(name, value) + close), close, acc, name, value);
  }

  /** Whitespace only. */
  predicate AllWs(w: string)
  {
    forall i :: 0 <= i < |w| ==> IsWs(w[i])
  }

  lemma {:induction false} WsSkipped(w: string, x: string)
    requires AllWs(w)
    ensures SkipWs(w + x) == SkipWs(x)
    decreases |w|
  {
    if w != [] {
      assert (w + x)[0] == w[0];
      assert (w + x)[1..] == w[1..] + x;
      WsSkipped(w[1..], x);
    } else {
      assert w + x == x;
    }
  }

  lemma DocumentOfMembers(text: string, members: map<string, string>, rest: string)
    requires SkipWs(text) == text && text != [] && text[0] == '{'
    requires SkipWs(text[1..]) == text[1..] && text[1..] != [] && text[1] != '}'
    requires ParseMembers(text[1..], map[]) == Some((members, rest)) && SkipWs(rest) == []
    ensures ParseDocument(text) == Some(members)
  {
  }

  lemma ObjectReadsBack(body: string, members: map<string, string>, rest: string)
    requires body != [] && body[0] == '"'
    requires ParseMembers(body, map[]) == Some((members, rest)) && SkipWs(rest) == []
    ensures ParseDocument("{" + body) == Some(members)
  {
    var text := "{" + body;
    NoLeadingWs(text);
    assert text[1..] == body;
    NoLeadingWs(body);
    DocumentOfMembers(text, members, rest);
  }

  lemma RegroupObject(a: string, b: string, tail: string)
    ensures "{" + a + ", " + b + "}" + tail == "{" + (a + ("," + (" " + (b + ("}" + tail)))))
  {
  }

  lemma MemberStartsWithQuote(name: string, value: string, rest: string)
    ensures (Member(name, value) + rest)[0] == '"'
  {
  }

  /** Both members of a two-member object read back, in order, whatever whitespace follows
      the object. */
  lemma TwoMemberObjectReadsBack(n1: string, v1: string, n2: string, v2: string, tail: string)
    requires AllWs(tail)
    ensures ParseDocument(TwoMemberObject(n1, v1, n2, v2) + tail) == Some(map[n1 := v1, n2 := v2])
  {
    var m1, m2 := Member(n1, v1), Member(n2, v2);
    var t := " " + (m2 + ("}" + tail));
    RegroupObject(m1, m2, tail);
    InnerMemberReadsBack(n1, v1, t, map[]);
    LastMemberReadsBack(n2, v2, map[n1 := v1], tail);
    MemberStartsWithQuote(n1, v1, "," + t);
    WsSkipped(tail, []);
    assert tail + [] == tail;
    ObjectReadsBack(m1 + ("," + t), map[n1 := v1, n2 := v2], tail);
  }

  /** Whitespace before a document does not change it. */
  lemma LeadingWsIgnored(lead: string, text: string)
    requires AllWs(lead)
    ensures ParseDocument(lead + text) == ParseDocument(text)
  {
    WsSkipped(lead, text);
  }

  lemma ValidateOfDocument(text: string, m: map<string, string>)
    requires ParseDocument(text) == Some(m)
    requires ResponseField in m && GraphIdField in m
    ensures Validate(text) == Some(JSONOutput(m[ResponseField], m[GraphIdField]))
  {
  }

  lemma EnvelopeMembers(response: string, graphId: string)
    ensures var m := map[ResponseField := response, GraphIdField := graphId];
      ResponseField in m && GraphIdField in m && m[ResponseField] == response && m[GraphIdField] == graphId
  {
    assert ResponseField != GraphIdField by { assert ResponseField[0] != GraphIdField[0]; }
  }

  lemma ValidatedFromMembers(text: string, response: string, graphId: string)
    requires ParseDocument(text) == Some(map[ResponseField := response, GraphIdField := graphId])
    ensures Validate(text) == Some(JSONOutput(response, graphId))
  {
    EnvelopeMembers(response, graphId);
    ValidateOfDocument(text, map[ResponseField := response, GraphIdField := graphId]);
  }

  lemma Associate(a: string, b: string, c: string)
    ensures a + b + c == a + (b + c)
  {
  }

  lemma AppendNothing(x: string)
    ensures x + [] == x
  {
  }

  lemma TwoMemberObjectExact(n1: string, v1: string, n2: string, v2: string)
    ensures ParseDocument(TwoMemberObject(n1, v1, n2, v2)) == Some(map[n1 := v1, n2 := v2])
  {
    TwoMemberObjectReadsBack(n1, v1, n2, v2, []);
    AppendNothing(TwoMemberObject(n1, v1, n2, v2));
  }

  lemma TwoMemberObjectAmidWs(n1: string, v1: string, n2: string, v2: string, lead: string, tail: string)
    requires AllWs(lead) && AllWs(tail)
    ensures ParseDocument(lead + TwoMemberObject(n1, v1, n2, v2) + tail) == Some(map[n1 := v1, n2 := v2])
  {
    var x := TwoMemberObject(n1, v1, n2, v2);
    TwoMemberObjectReadsBack(n1, v1, n2, v2, tail);
    Associate(lead, x, tail);
    LeadingWsIgnored(lead, x + tail);
  }

  /** The envelope, with any whitespace around it, validates as the two strings it was
      built from. */
  lemma EnvelopeAmidWhitespace(response: string, graphId: string, lead: string, tail: string)
    requires AllWs(lead) && AllWs(tail)
    ensures Validate(lead + JsonOutputParser(response, graphId) + tail) == Some(JSONOutput(response, graphId))
  {
    TwoMemberObjectAmidWs(ResponseField, response, GraphIdField, graphId, lead, tail);
    ValidatedFromMembers(lead + JsonOutputParser(response, graphId) + tail, response, graphId);
  }

  /** The tool's output is a JSON object with exactly the members `response` and `graph_id`,
      holding the two strings passed in. */
  lemma EnvelopeRoundTrip(response: string, graphId: string)
    ensures ParseDocument(JsonOutputParser(response, graphId)) == Some(map[ResponseField := response, GraphIdField := graphId])
    ensures Validate(JsonOutputParser(response, graphId)) == Some(JSONOutput(response, graphId))
  {
    TwoMemberObjectExact(ResponseField, response, GraphIdField, graphId);
    ValidatedFromMembers(JsonOutputParser(response, graphId), response, graphId);
  }

  /** Without a `graph_id` argument the envelope carries the empty string. */
  lemma DefaultGraphIdIsEmpty(response: string)
    ensures Validate(JsonOutputParser(response)) == Some(JSONOutput(response, ""))
  {
    EnvelopeRoundTrip(response, "");
  }
}
