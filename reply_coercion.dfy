/** How `Chat.send_prompt` turns the agent's final text into a reply: every leading and
    trailing backtick is stripped, the first `json` is deleted, and the result is validated
    as a `JSONOutput`; text that does not validate becomes the reply's `response` with an
    empty `graph_id`. */
module ReplyCoercion {
  import opened Common
  import opened JsonOutput
  import opened ParserTool

  const Tag := "json"

  /** `output.strip('`').replace('json', '', 1)`. */
  function Coerce(output: string): string
  {
    ReplaceFirst(Strip(output, '`'), Tag, "")
  }

  /** The validated reply, or the fallback built from the coerced text. */
  function Reply(output: string): JSONOutput
  {
    var content := Coerce(output);
    match Validate(content)
    case Some(reply) => reply
    case None => JSONOutput(content, "")
  }

  /** The coerced text is the stripped text, or the stripped text with its leftmost `json`
      cut out; nothing else is removed. */
  lemma CoerceRemovesAtMostOneTag(output: string)
    ensures var stripped := Strip(output, '`');
      (stripped == [] || (stripped[0] != '`' && stripped[|stripped| - 1] != '`')) &&
      (!Contains(stripped, Tag) ==> Coerce(output) == stripped) &&
      (Contains(stripped, Tag) ==>
        (exists i :: 0 <= i && i + 4 <= |stripped| && stripped[i..i + 4] == Tag &&
          Coerce(output) == stripped[..i] + stripped[i + 4..] &&
          (forall j :: 0 <= j < i ==> !StartsWith(stripped[j..], Tag))))
  {
    var stripped := Strip(output, '`');
    if Contains(stripped, Tag) {
      var i := ReplaceFirstSplit(stripped, Tag, "");
      assert stripped[..i] + "" == stripped[..i];
    } else {
      ReplaceFirstAbsent(stripped, Tag, "");
    }
  }

  /** Plain prose, a coerced text without `{`, cannot validate: it becomes the reply's
      `response` as it stands, with an empty `graph_id`. */
  lemma ProseFallsBack(output: string)
    requires Lacks(Coerce(output), '{')
    ensures Reply(output) == JSONOutput(Coerce(output), "")
  {
    SkippedWsLacks(Coerce(output), '{');
  }

  /** Skipping leading whitespace only drops characters. */
  lemma {:induction false} SkippedWsLacks(x: string, c: char)
    requires Lacks(x, c)
    ensures Lacks(SkipWs(x), c)
    decreases |x|
  {
    if x != [] && IsWs(x[0]) {
      SkippedWsLacks(x[1..], c);
    }
  }

  /** `c` does not occur in `x`. */
  predicate Lacks(x: string, c: char)
  {
    forall i :: 0 <= i < |x| ==> x[i] != c
  }

  lemma LacksConcat(a: string, b: string, c: char)
    requires Lacks(a, c) && Lacks(b, c)
    ensures Lacks(a + b, c)
  {
  }

  lemma EscapeCons(c: char, x: string)
    ensures Escape([c] + x) == EscapeChar(c) + Escape(x)
  {
    assert ([c] + x)[0] == c;
    assert ([c] + x)[1..] == x;
  }

  lemma UnicodeEscapeLacksJ(n: nat)
    requires n < 0x10000
    ensures Lacks(UnicodeEscape(n), 'j')
  {
    var e := UnicodeEscape(n);
    forall i | 0 <= i < |e|
      ensures e[i] != 'j'
    {
      if i >= 2 {
        assert e[i] == Hex4(n)[i - 2];
      }
    }
  }

  /** No character but `j` itself is written with a `j`. */
  lemma EscapeCharLacksJ(c: char)
    requires c != 'j'
    ensures Lacks(EscapeChar(c), 'j')
  {
    if IsShortEscaped(c) {
    } else if IsPrintableAscii(c) {
    } else if c as int < 0x10000 {
      UnicodeEscapeLacksJ(c as int);
    } else {
      UnicodeEscapeLacksJ(HighSurrogate(c));
      UnicodeEscapeLacksJ(LowSurrogate(c));
      LacksConcat(UnicodeEscape(HighSurrogate(c)), UnicodeEscape(LowSurrogate(c)), 'j');
    }
  }

  lemma {:induction false} EscapeLacksJ(s: string)
    requires Lacks(s, 'j')
    ensures Lacks(Escape(s), 'j')
    decreases |s|
  {
    if s != [] {
      EscapeCharLacksJ(s[0]);
      EscapeLacksJ(s[1..]);
      LacksConcat(EscapeChar(s[0]), Escape(s[1..]), 'j');
    }
  }

  /** An escaped character begins with a backslash, or is a plain letter written as itself. */
  lemma EscapeCharHead(c: char)
    ensures EscapeChar(c) != []
    ensures EscapeChar(c)[0] == '\\' || (EscapeChar(c) == [c] && IsPrintableAscii(c) && !IsShortEscaped(c))
  {
  }

  /** Text closed by a quote and escaped text alike: a head that is not a quote is not the
      closing quote, so the escaped text is not empty. */
  lemma HeadBeforeQuote(u: string, t: string, c: char)
    requires t != [] && t[0] == '"' && c != '"'
    requires (Escape(u) + t)[0] == c
    ensures u != []
  {
    assert Escape([]) == [];
  }

  lemma PlainHeadOfText(u: string, t: string, c: char)
    requires u != [] && IsPrintableAscii(c) && !IsShortEscaped(c)
    requires (Escape(u) + t)[0] == c
    ensures u[0] == c
    ensures Escape(u) + t == [c] + (Escape(u[1..]) + t)
  {
    var e := EscapeChar(u[0]);
    var y := Escape(u[1..]) + t;
    EscapeCharHead(u[0]);
    assert Escape(u) == e + Escape(u[1..]);
    Associate3(e, Escape(u[1..]), t);
    PickHead(e, y, u[0], c);
  }

  lemma PickHead(e: string, y: string, x: char, c: char)
    requires e != [] && (e[0] == '\\' || e == [x]) && c != '\\'
    requires (e + y)[0] == c
    ensures e == [c] && x == c
  {
  }

  /** A letter other than the quote and the backslash at the head of an escaped text, followed
      by a closing quote, comes from that same letter of the original text. */
  lemma PlainHead(u: string, t: string, c: char)
    requires t != [] && t[0] == '"'
    requires IsPrintableAscii(c) && !IsShortEscaped(c)
    requires (Escape(u) + t)[0] == c
    ensures u != [] && u[0] == c
    ensures Escape(u) + t == [c] + (Escape(u[1..]) + t)
  {
    HeadBeforeQuote(u, t, c);
    PlainHeadOfText(u, t, c);
  }

  /** Text written as itself inside a string literal. */
  predicate Plain(w: string)
  {
    forall i :: 0 <= i < |w| ==> IsPrintableAscii(w[i]) && !IsShortEscaped(w[i])
  }

  /** Plain letters at the head of an escaped text come from the same letters of the text. */
  lemma {:induction false} PlainPrefix(u: string, t: string, w: string)
    requires t != [] && t[0] == '"'
    requires Plain(w)
    requires StartsWith(Escape(u) + t, w)
    ensures StartsWith(u, w)
    decreases |w|
  {
    if w != [] {
      PlainHead(u, t, w[0]);
      var y := Escape(u[1..]) + t;
      assert ([w[0]] + y)[..|w|] == [w[0]] + y[..|w| - 1];
      assert y[..|w| - 1] == w[1..];
      PlainPrefix(u[1..], t, w[1..]);
      assert u[..|w|] == [u[0]] + u[1..][..|w| - 1];
    }
  }

  /** An escaped text closed by a quote begins with `json` only when the text itself does. */
  lemma TagOnlyFromTag(s: string, t: string)
    requires t != [] && t[0] == '"'
    ensures StartsWith(Escape(s) + t, Tag) ==> StartsWith(s, Tag)
  {
    if StartsWith(Escape(s) + t, Tag) {
      PlainPrefix(s, t, Tag);
    }
  }

  lemma {:induction false} EscapeAppend(w: string, u: string)
    ensures Escape(w + u) == Escape(w) + Escape(u)
    decreases |w|
  {
    if w == [] {
      assert w + u == u;
    } else {
      assert (w + u)[1..] == w[1..] + u;
      EscapeAppend(w[1..], u);
      Associate3(EscapeChar(w[0]), Escape(w[1..]), Escape(u));
    }
  }

  /** Text made of plain letters is written as itself. */
  lemma {:induction false} PlainEscapesToItself(w: string)
    requires Plain(w)
    ensures Escape(w) == w
    decreases |w|
  {
    if w != [] {
      PlainEscapesToItself(w[1..]);
      assert [w[0]] + w[1..] == w;
    }
  }

  /** When the text begins with `json`, so does its escaped form, and both lose it. */
  lemma TagAtFront(s: string, t: string)
    requires StartsWith(s, Tag)
    ensures Contains(s, Tag)
    ensures ReplaceFirst(Escape(s) + t, Tag, "") == Escape(ReplaceFirst(s, Tag, "")) + t
  {
    var u := s[4..];
    assert s == Tag + u;
    EscapeAppend(Tag, u);
    PlainEscapesToItself(Tag);
    Associate3(Tag, Escape(u), t);
    ReplaceFirstAtFront(Tag, u, "");
    ReplaceFirstAtFront(Tag, Escape(u) + t, "");
    assert Escape(s) + t == Tag + (Escape(u) + t);
    assert "" + u == u && "" + (Escape(u) + t) == Escape(u) + t;
  }

  /** A first character that does not begin `json` is written out unchanged in front of
      whatever the search makes of the rest. */
  lemma HeadKept(s: string, t: string)
    requires t != [] && t[0] == '"'
    requires s != [] && !StartsWith(s, Tag)
    ensures ReplaceFirst(Escape(s) + t, Tag, "") == EscapeChar(s[0]) + ReplaceFirst(Escape(s[1..]) + t, Tag, "")
  {
    var e := EscapeChar(s[0]);
    var y := Escape(s[1..]) + t;
    assert Escape(s) + t == e + y;
    if s[0] == 'j' {
      TagOnlyFromTag(s, t);
      assert e == ['j'];
      assert (e + y)[1..] == y;
    } else {
      EscapeCharLacksJ(s[0]);
      ReplaceFirstSkips(e, y, Tag, "");
    }
  }

  lemma Associate3(a: string, b: string, c: string)
    ensures a + (b + c) == (a + b) + c
  {
  }

  /** One character past a position where `json` does not begin, when the rest holds it. */
  lemma StepFound(s: string, t: string)
    requires t != [] && t[0] == '"'
    requires s != [] && !StartsWith(s, Tag) && Contains(s[1..], Tag)
    requires ReplaceFirst(Escape(s[1..]) + t, Tag, "") == Escape(ReplaceFirst(s[1..], Tag, "")) + t
    ensures Contains(s, Tag)
    ensures ReplaceFirst(Escape(s) + t, Tag, "") == Escape(ReplaceFirst(s, Tag, "")) + t
  {
    HeadKept(s, t);
    var r := ReplaceFirst(s[1..], Tag, "");
    assert ReplaceFirst(s, Tag, "") == [s[0]] + r;
    EscapeCons(s[0], r);
    Associate3(EscapeChar(s[0]), Escape(r), t);
  }

  /** One character past a position where `json` does not begin, when the rest lacks it. */
  lemma StepAbsent(s: string, t: string)
    requires t != [] && t[0] == '"'
    requires s != [] && !StartsWith(s, Tag) && !Contains(s[1..], Tag)
    requires ReplaceFirst(Escape(s[1..]) + t, Tag, "") == Escape(s[1..]) + ReplaceFirst(t, Tag, "")
    ensures !Contains(s, Tag)
    ensures ReplaceFirst(Escape(s) + t, Tag, "") == Escape(s) + ReplaceFirst(t, Tag, "")
  {
    HeadKept(s, t);
    assert Escape(s) == EscapeChar(s[0]) + Escape(s[1..]);
    Associate3(EscapeChar(s[0]), Escape(s[1..]), ReplaceFirst(t, Tag, ""));
  }

  /** Deleting the first `json` commutes with writing a string literal: the escaped text of
      `s`, closed by a quote, loses the `json` that `s` would lose, and when `s` has none the
      search goes on past the quote. */
  lemma {:induction false} EscapeCommutesWithTagRemoval(s: string, t: string)
    requires t != [] && t[0] == '"'
    ensures ReplaceFirst(Escape(s) + t, Tag, "") ==
            if Contains(s, Tag) then Escape(ReplaceFirst(s, Tag, "")) + t
            else Escape(s) + ReplaceFirst(t, Tag, "")
    decreases |s|
  {
    if s == [] {
      assert Escape(s) + t == t;
    } else if StartsWith(s, Tag) {
      TagAtFront(s, t);
    } else {
      EscapeCommutesWithTagRemoval(s[1..], t);
      if Contains(s[1..], Tag) {
        StepFound(s, t);
      } else {
        StepAbsent(s, t);
      }
    }
  }

  lemma RegroupEnvelope(a: string, b: string, q: string, e1: string, c: string, d: string, e2: string, z: string)
    ensures (((a + (b + ((q + e1) + q))) + c) + (d + ((q + e2) + q))) + z ==
            ((a + b) + q) + (e1 + ((((q + c) + d) + q) + (e2 + (q + z))))
  {
  }

  /** What precedes the first value of a two-member object. */
  function Opening(n1: string): string
  {
    "{" + (Quoted(n1) + ": ") + "\""
  }

  /** What lies between the two values. */
  function Between(n2: string): string
  {
    "\"" + ", " + (Quoted(n2) + ": ") + "\""
  }

  const Closing := "\"" + "}"

  /** The layout of a two-member object: an opening that depends only on the first name,
      the first value, a middle that depends only on the second name, the second value and
      the closing quote and brace. */
  lemma TwoMemberLayout(n1: string, v1: string, n2: string, v2: string)
    ensures TwoMemberObject(n1, v1, n2, v2) == Opening(n1) + (Escape(v1) + (Between(n2) + (Escape(v2) + Closing)))
  {
    RegroupEnvelope("{", Quoted(n1) + ": ", "\"", Escape(v1), ", ", Quoted(n2) + ": ", Escape(v2), "}");
  }

  lemma QuotedLacksJ(w: string)
    requires Lacks(w, 'j')
    ensures Lacks(Quoted(w) + ": ", 'j')
  {
    EscapeLacksJ(w);
  }

  /** The object's own punctuation, around names without a `j`, holds no `j`. */
  lemma PunctuationLacksJ(n1: string, n2: string)
    requires Lacks(n1, 'j') && Lacks(n2, 'j')
    ensures Lacks(Opening(n1), 'j') && Lacks(Between(n2), 'j') && Lacks(Closing, 'j')
  {
    QuotedLacksJ(n1);
    QuotedLacksJ(n2);
  }

  /** The search for `json` in the text after the first value: it finds the second value's
      first `json`, if any, and nothing in the punctuation. */
  lemma SecondValueTag(n2: string, v2: string)
    requires Lacks(Between(n2), 'j')
    ensures ReplaceFirst(Between(n2) + (Escape(v2) + Closing), Tag, "") ==
            Between(n2) + (Escape(ReplaceFirst(v2, Tag, "")) + Closing)
  {
    ReplaceFirstSkips(Between(n2), Escape(v2) + Closing, Tag, "");
    EscapeCommutesWithTagRemoval(v2, Closing);
    if !Contains(v2, Tag) {
      ReplaceFirstSkips(Closing, [], Tag, "");
      assert Closing + [] == Closing;
      ReplaceFirstAbsent(v2, Tag, "");
    }
  }

  /** Names without a `j`: the object's own punctuation cannot start a `json` either, so the
      first `json` lies in the first value, or else in the second. */
  lemma CoerceTwoMemberObject(n1: string, v1: string, n2: string, v2: string)
    requires Lacks(n1, 'j') && Lacks(n2, 'j')
    ensures Coerce(TwoMemberObject(n1, v1, n2, v2)) ==
            if Contains(v1, Tag) then TwoMemberObject(n1, ReplaceFirst(v1, Tag, ""), n2, v2)
            else TwoMemberObject(n1, v1, n2, ReplaceFirst(v2, Tag, ""))
  {
    var text := TwoMemberObject(n1, v1, n2, v2);
    var after := Between(n2) + (Escape(v2) + Closing);
    StripUnchanged(text, '`');
    TwoMemberLayout(n1, v1, n2, v2);
    PunctuationLacksJ(n1, n2);
    ReplaceFirstSkips(Opening(n1), Escape(v1) + after, Tag, "");
    EscapeCommutesWithTagRemoval(v1, after);
    if Contains(v1, Tag) {
      TwoMemberLayout(n1, ReplaceFirst(v1, Tag, ""), n2, v2);
    } else {
      SecondValueTag(n2, v2);
      TwoMemberLayout(n1, v1, n2, ReplaceFirst(v2, Tag, ""));
    }
  }

  lemma FieldsLackJ()
    ensures Lacks(ResponseField, 'j') && Lacks(GraphIdField, 'j')
  {
  }

  lemma ReplyOfValid(output: string, v: JSONOutput)
    requires Validate(Coerce(output)) == Some(v)
    ensures Reply(output) == v
  {
  }

  /** The tool's envelope, returned as the agent's final answer, loses the first `json` of its
      `response`, or of its `graph_id` when the `response` has none. */
  lemma ReplyOfEnvelope(response: string, graphId: string)
    ensures Reply(JsonOutputParser(response, graphId)) ==
            if Contains(response, Tag) then JSONOutput(ReplaceFirst(response, Tag, ""), graphId)
            else JSONOutput(response, ReplaceFirst(graphId, Tag, ""))
  {
    FieldsLackJ();
    CoerceTwoMemberObject(ResponseField, response, GraphIdField, graphId);
    var r, g := response, graphId;
    if Contains(response, Tag) {
      r := ReplaceFirst(response, Tag, "");
    } else {
      g := ReplaceFirst(graphId, Tag, "");
    }
    EnvelopeRoundTrip(r, g);
    ReplyOfValid(JsonOutputParser(response, graphId), JSONOutput(r, g));
  }

  /** An envelope whose strings hold no `json` comes back exactly. */
  lemma EnvelopeWithoutTagKept(response: string, graphId: string)
    requires !Contains(response, Tag) && !Contains(graphId, Tag)
    ensures Reply(JsonOutputParser(response, graphId)) == JSONOutput(response, graphId)
  {
    ReplyOfEnvelope(response, graphId);
    ReplaceFirstAbsent(graphId, Tag, "");
  }

  const Fence := "```"
  const Newline := "\n"

  /** `x` in a Markdown code block tagged `json`, each fence on a line of its own. */
  function Fenced(x: string): string
  {
    Fence + (Tag + (Newline + x + Newline)) + Fence
  }

  /** Coercion takes off the fences and the tag and keeps the line breaks. */
  lemma CoerceFenced(x: string)
    ensures Coerce(Fenced(x)) == Newline + x + Newline
  {
    var inner := Tag + (Newline + x + Newline);
    StripRuns(Fence, inner, Fence, '`');
    ReplaceFirstAtFront(Tag, Newline + x + Newline, "");
    assert "" + (Newline + x + Newline) == Newline + x + Newline;
  }

  /** The envelope inside a code block tagged `json` comes back exactly: the backticks are
      stripped, the tag is the first `json`, and the line breaks around the object are
      insignificant whitespace. */
  lemma FencedEnvelopeKept(response: string, graphId: string)
    ensures Reply(Fenced(JsonOutputParser(response, graphId))) == JSONOutput(response, graphId)
  {
    EnvelopeAmidWhitespace(response, graphId, Newline, Newline);
    ReplyOfFenced(JsonOutputParser(response, graphId), JSONOutput(response, graphId));
  }

  lemma ReplyOfFenced(x: string, v: JSONOutput)
    requires Validate(Newline + x + Newline) == Some(v)
    ensures Reply(Fenced(x)) == v
  {
    CoerceFenced(x);
  }

  /** A `response` whose first `j` begins `json` comes back without that word. */
  lemma ResponseLosesTag(before: string, after: string, graphId: string)
    requires Lacks(before, 'j')
    ensures Reply(JsonOutputParser(before + Tag + after, graphId)) == JSONOutput(before + after, graphId)
  {
    var r := before + Tag + after;
    ContainsWithin(before, Tag, after);
    assert r == before + (Tag + after);
    ReplaceFirstSkips(before, Tag + after, Tag, "");
    ReplaceFirstAtFront(Tag, after, "");
    assert "" + after == after;
    ReplyOfEnvelope(r, graphId);
  }

  const Mention := "a json file"
  const MentionCut := "a  file"

  /** The direct answer the tool produces for a `response` mentioning JSON. */
  lemma MentionOfJsonIsCut()
    ensures Reply(JsonOutputParser(Mention)) == JSONOutput(MentionCut, "")
  {
    var before, after := "a ", " file";
    assert Mention == before + Tag + after;
    assert MentionCut == before + after;
    ResponseLosesTag(before, after, "");
  }

  /** The coercion as evidently intended: the backticks of a code block and the language tag
      right after them are removed, and nothing inside the JSON text is touched. */
  function CoerceIntended(output: string): string
  {
    var stripped := Strip(output, '`');
    if StartsWith(stripped, Tag) then stripped[|Tag|..] else stripped
  }

  /** The reply built from the intended coercion. */
  function ReplyIntended(output: string): JSONOutput
  {
    var content := CoerceIntended(output);
    match Validate(content)
    case Some(reply) => reply
    case None => JSONOutput(content, "")
  }

  /** Both coercions remove a leading tag, and both leave text without any `json` alone;
      they differ only on a `json` past the start. */
  lemma IntendedAgreesOnTagAtStart(output: string)
    requires StartsWith(Strip(output, '`'), Tag) || !Contains(Strip(output, '`'), Tag)
    ensures CoerceIntended(output) == Coerce(output)
  {
    TagRemovalAgrees(Strip(output, '`'));
  }

  lemma TagRemovalAgrees(s: string)
    requires StartsWith(s, Tag) || !Contains(s, Tag)
    ensures ReplaceFirst(s, Tag, "") == if StartsWith(s, Tag) then s[|Tag|..] else s
  {
    if !StartsWith(s, Tag) {
      ReplaceFirstAbsent(s, Tag, "");
    }
  }

  /** The tool's envelope, returned directly, comes back exactly, whatever strings it holds. */
  lemma IntendedEnvelopeKept(response: string, graphId: string)
    ensures ReplyIntended(JsonOutputParser(response, graphId)) == JSONOutput(response, graphId)
  {
    var text := JsonOutputParser(response, graphId);
    StripUnchanged(text, '`');
    FirstCharMismatch(text, Tag);
    EnvelopeRoundTrip(response, graphId);
  }

  lemma CoerceIntendedFenced(x: string)
    ensures CoerceIntended(Fenced(x)) == Newline + x + Newline
  {
    var inner := Tag + (Newline + x + Newline);
    StripRuns(Fence, inner, Fence, '`');
    assert inner[..4] == Tag && inner[4..] == Newline + x + Newline;
  }

  lemma ReplyIntendedOfFenced(x: string, v: JSONOutput)
    requires Validate(Newline + x + Newline) == Some(v)
    ensures ReplyIntended(Fenced(x)) == v
  {
    CoerceIntendedFenced(x);
  }

  /** The envelope inside a code block tagged `json` comes back exactly as well. */
  lemma IntendedFencedEnvelopeKept(response: string, graphId: string)
    ensures ReplyIntended(Fenced(JsonOutputParser(response, graphId))) == JSONOutput(response, graphId)
  {
    EnvelopeAmidWhitespace(response, graphId, Newline, Newline);
    ReplyIntendedOfFenced(JsonOutputParser(response, graphId), JSONOutput(response, graphId));
  }
}
