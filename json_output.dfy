/** The `JSONOutput` schema (two string fields, `response` and `graph_id`) and its
    validation from JSON text, `JSONOutput.model_validate_json`. The validator reads a JSON
    object (RFC 8259 section 4) whose member values are strings (RFC 8259 section 7,
    escapes and UTF-16 surrogate pairs included), with insignificant whitespace around
    every token. A repeated member name keeps its last value; names other than the two
    fields are ignored. */
module JsonOutput {
  import opened Common

  datatype JSONOutput = JSONOutput(response: string, graphId: string)

  /** The two member names of the schema. */
  const ResponseField := "response"
  const GraphIdField := "graph_id"

  predicate IsWs(c: char)
  {
    c == ' ' || c == '\t' || c == '\n' || c == '\r'
  }

  function SkipWs(s: string): (r: string)
    ensures |r| <= |s|
    decreases |s|
  {
    if s != [] && IsWs(s[0]) then SkipWs(s[1..]) else s
  }

  function HexValue(c: char): (r: Option<nat>)
    ensures r.Some? ==> r.value < 16
  {
    if '0' <= c <= '9' then Some(c as int - '0' as int)
    else if 'a' <= c <= 'f' then Some(c as int - 'a' as int + 10)
    else if 'A' <= c <= 'F' then Some(c as int - 'A' as int + 10)
    else None
  }

  /** The code unit written as four hexadecimal digits. */
  function Hex4Value(s: string): (r: Option<nat>)
    requires |s| == 4
    ensures r.Some? ==> r.value < 0x10000
  {
    match (HexValue(s[0]), HexValue(s[1]), HexValue(s[2]), HexValue(s[3]))
    case (Some(a), Some(b), Some(c), Some(d)) => Some(((a * 16 + b) * 16 + c) * 16 + d)
    case _ => None
  }

  predicate IsHighSurrogate(u: nat)
  {
    0xD800 <= u < 0xDC00
  }

  predicate IsLowSurrogate(u: nat)
  {
    0xDC00 <= u < 0xE000
  }

  /** The code point a high and a low surrogate stand for together. */
  function CombineSurrogates(hi: nat, lo: nat): (cp: int)
    requires IsHighSurrogate(hi) && IsLowSurrogate(lo)
    ensures 0x10000 <= cp < 0x110000
  {
    0x10000 + (hi - 0xD800) * 0x400 + (lo - 0xDC00)
  }

  /** The character a one-letter escape (`\n`, `\"`, ...) stands for. */
  function ShortEscape(letter: char): Option<char>
  {
    match letter
    case '"' => Some('"')
    case '\\' => Some('\\')
    case '/' => Some('/')
    case 'b' => Some(8 as char)
    case 'f' => Some(12 as char)
    case 'n' => Some('\n')
    case 'r' => Some('\r')
    case 't' => Some('\t')
    case _ => None
  }

  /** Reads `XXXX` after `\u`, or `XXXX\uYYYY` when the first is a high surrogate. A lone
      surrogate cannot stand for a character and is rejected. */
  function ParseUnicodeEscape(s: string): (r: Option<(char, string)>)
    ensures r.Some? ==> |r.value.1| < |s|
  {
    if |s| < 4 then None
    else
      match Hex4Value(s[..4])
      case None => None
      case Some(u) =>
        if IsHighSurrogate(u) then
          if |s| >= 10 && s[4] == '\\' && s[5] == 'u' then
            match Hex4Value(s[6..10])
            case None => None
            case Some(l) =>
              if IsLowSurrogate(l) then Some((CombineSurrogates(u, l) as char, s[10..])) else None
          else None
        else if IsLowSurrogate(u) then None
        else Some((u as char, s[4..]))
  }

  /** Reads one escape sequence; `s` is the text after the backslash. */
  function ParseEscape(s: string): (r: Option<(char, string)>)
    ensures r.Some? ==> |r.value.1| < |s|
  {
    if s == [] then None
    else if s[0] == 'u' then ParseUnicodeEscape(s[1..])
    else
      match ShortEscape(s[0])
      case None => None
      case Some(c) => Some((c, s[1..]))
  }

  function Prepend(c: char, r: Option<(string, string)>): Option<(string, string)>
  {
    match r
    case None => None
    case Some((text, rest)) => Some(([c] + text, rest))
  }

  /** Reads the characters of a string literal up to and including its closing quote;
      `s` is the text after the opening quote. Returns the decoded text and what follows. */
  function ParseStringBody(s: string): (r: Option<(string, string)>)
    ensures r.Some? ==> |r.value.1| < |s|
    decreases |s|, 1
  {
    if s == [] then None
    else if s[0] == '"' then Some(([], s[1..]))
    else if s[0] == '\\' then ParseEscaped(s[1..])
    else if s[0] < ' ' then None
    else Prepend(s[0], ParseStringBody(s[1..]))
  }

  /** The rest of a string literal after a backslash. */
  function ParseEscaped(s: string): (r: Option<(string, string)>)
    ensures r.Some? ==> |r.value.1| < |s|
    decreases |s|, 0
  {
    match ParseEscape(s)
    case None => None
    case Some((c, rest)) => Prepend(c, ParseStringBody(rest))
  }

  /** Reads a string literal, opening quote included, after optional whitespace. */
  function ParseString(s: string): (r: Option<(string, string)>)
    ensures r.Some? ==> |r.value.1| < |s|
  {
    var t := SkipWs(s);
    if t != [] && t[0] == '"' then ParseStringBody(t[1..]) else None
  }

  /** Reads one `name : value` member; returns the name, the value and what follows. */
  function ParseMember(s: string): (r: Option<(string, string, string)>)
    ensures r.Some? ==> |r.value.2| < |s|
  {
    match ParseString(s)
    case None => None
    case Some((name, afterName)) =>
      var colon := SkipWs(afterName);
      if colon == [] || colon[0] != ':' then None
      else
        match ParseString(colon[1..])
        case None => None
        case Some((value, rest)) => Some((name, value, rest))
  }

  /** Reads members separated by commas up to the closing brace, adding each to `acc`. */
  function ParseMembers(s: string, acc: map<string, string>): (r: Option<(map<string, string>, string)>)
    decreases |s|
  {
    match ParseMember(s)
    case None => None
    case Some((name, value, rest)) =>
      var next := SkipWs(rest);
      if next != [] && next[0] == ',' then ParseMembers(next[1..], acc[name := value])
      else if next != [] && next[0] == '}' then Some((acc[name := value], next[1..]))
      else None
  }

  /** Reads a whole document that is one JSON object with string values. */
  function ParseDocument(text: string): (r: Option<map<string, string>>)
  {
    var s := SkipWs(text);
    if s == [] || s[0] != '{' then None
    else
      var body := SkipWs(s[1..]);
      var parsed: Option<(map<string, string>, string)> :=
        if body != [] && body[0] == '}' then Some((map[], body[1..]))
        else ParseMembers(body, map[]);
      match parsed
      case None => None
      case Some((members, rest)) => if SkipWs(rest) == [] then Some(members) else None
  }

  /** `JSONOutput.model_validate_json`: both fields present, as strings. */
  function Validate(text: string): Option<JSONOutput>
  {
    match ParseDocument(text)
    case None => None
    case Some(m) =>
      if ResponseField in m && GraphIdField in m then Some(JSONOutput(m[ResponseField], m[GraphIdField])) else None
  }
}
