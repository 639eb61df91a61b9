/**
 * The scanner that takes a JSON object out of an LLM answer (ecom_agent/text/json_parse.py), and the JSON
 * grammar of RFC 8259 it is measured against.
 */
module JsonText {
  // ---- Concrete syntax (sections 2 to 7 of RFC 8259), blanks included ----

  datatype Char =
    | Plain(c: char)
    | Escaped(c: char)        // \" \\ \/ \b \f \n \r \t
    | Unicode(hex: string)    // \uXXXX

  datatype Exponent = NoExponent | Exponent(mark: char, sign: string, digits: string)

  datatype Json =
    | Null | True | False
    | Number(minus: bool, whole: string, fraction: string, exponent: Exponent)
    | String(chars: seq<Char>)
    | Array(blank: string, items: Items)
    | Object(blank: string, members: Members)

  datatype Items = NoItem | Item(before: string, value: Json, after: string, rest: Items)

  datatype Members =
    | NoMember
    | Member(before: string, name: seq<Char>, afterName: string, beforeValue: string, value: Json, after: string,
             rest: Members)

  predicate Blank(s: string) {
    forall i :: 0 <= i < |s| ==> s[i] in " \t\n\r"
  }

  predicate Digits(s: string) {
    forall i :: 0 <= i < |s| ==> '0' <= s[i] <= '9'
  }

  predicate HexDigits(s: string) {
    forall i :: 0 <= i < |s| ==> '0' <= s[i] <= '9' || 'a' <= s[i] <= 'f' || 'A' <= s[i] <= 'F'
  }

  predicate LegalChar(ch: Char) {
    match ch
    case Plain(c) => ' ' <= c && c != '"' && c != '\\'
    case Escaped(c) => c in "\"\\/bfnrt"
    case Unicode(hex) => |hex| == 4 && HexDigits(hex)
  }

  predicate LegalChars(chars: seq<Char>) {
    forall i :: 0 <= i < |chars| ==> LegalChar(chars[i])
  }

  predicate LegalExponent(e: Exponent) {
    e.Exponent? ==> e.mark in "eE" && e.sign in ["", "+", "-"] && e.digits != "" && Digits(e.digits)
  }

  predicate Legal(v: Json) {
    match v
    case Null => true
    case True => true
    case False => true
    case Number(_, whole, fraction, exponent) =>
      && whole != "" && Digits(whole) && (whole[0] == '0' ==> whole == "0")
      && Digits(fraction) && LegalExponent(exponent)
    case String(chars) => LegalChars(chars)
    case Array(blank, items) => Blank(blank) && LegalItems(items)
    case Object(blank, members) => Blank(blank) && LegalMembers(members)
  }

  predicate LegalItems(items: Items) {
    match items
    case NoItem => true
    case Item(before, v, after, rest) => Blank(before) && Legal(v) && Blank(after) && LegalItems(rest)
  }

  predicate LegalMembers(members: Members) {
    match members
    case NoMember => true
    case Member(before, name, afterName, beforeValue, v, after, rest) =>
      && Blank(before) && LegalChars(name) && Blank(afterName) && Blank(beforeValue)
      && Legal(v) && Blank(after) && LegalMembers(rest)
  }

  function PrintChar(ch: Char): string {
    match ch
    case Plain(c) => [c]
    case Escaped(c) => ['\\', c]
    case Unicode(hex) => "\\u" + hex
  }

  function PrintChars(chars: seq<Char>): string {
    if chars == [] then "" else PrintChar(chars[0]) + PrintChars(chars[1..])
  }

  function Quote(chars: seq<Char>): string {
    "\"" + (PrintChars(chars) + "\"")
  }

  function PrintNumber(v: Json): string
    requires v.Number?
  {
    (if v.minus then "-" else "") + v.whole
    + (if v.fraction == "" then "" else "." + v.fraction)
    + (if v.exponent.NoExponent? then "" else [v.exponent.mark] + v.exponent.sign + v.exponent.digits)
  }

  function Print(v: Json): string {
    match v
    case Null => "null"
    case True => "true"
    case False => "false"
    case Number(_, _, _, _) => PrintNumber(v)
    case String(chars) => Quote(chars)
    case Array(blank, items) => "[" + (blank + (PrintItems(items) + "]"))
    case Object(blank, members) => "{" + (blank + (PrintMembers(members) + "}"))
  }

  function PrintItems(items: Items): string {
    match items
    case NoItem => ""
    case Item(before, v, after, rest) =>
      before + (Print(v) + (after + if rest.NoItem? then "" else "," + PrintItems(rest)))
  }

  function PrintMembers(members: Members): string {
    match members
    case NoMember => ""
    case Member(before, name, afterName, beforeValue, v, after, rest) =>
      before + (Quote(name) + (afterName + (":" + (beforeValue + (Print(v)
      + (after + if rest.NoMember? then "" else "," + PrintMembers(rest)))))))
  }
}

module JsonSpan {
  import opened Wrappers
  import opened Strings
  import opened JsonText

  // ---- Python's str.splitlines ----

  predicate LineBreak(c: char) {
    || '\n' <= c <= '\r' || '\U{1c}' <= c <= '\U{1e}' || c == '\U{85}' || c == '\U{2028}' || c == '\U{2029}'
  }

  /** `s.splitlines()`: "\r\n" is one break, and a break at the very end opens no further line. */
  function SplitLines(s: string): seq<string> {
    if s == "" then []
    else if |s| >= 2 && s[0] == '\r' && s[1] == '\n' then [""] + SplitLines(s[2..])
    else if LineBreak(s[0]) then [""] + SplitLines(s[1..])
    else
      var rest := SplitLines(s[1..]);
      if rest == [] then [[s[0]]] else [[s[0]] + rest[0]] + rest[1..]
  }

  const FENCE := "```"

  /** Drop a code fence around the whole text. */
  function Unfence(text: string): string {
    if !StartsWith(text, FENCE) then text else Strip(JoinWith(DropFences(SplitLines(text)), '\n'))
  }

  function DropFences(lines: seq<string>): seq<string> {
    var lines := if lines != [] && StartsWith(lines[0], FENCE) then lines[1..] else lines;
    if lines != [] && Strip(lines[|lines| - 1]) == FENCE then lines[..|lines| - 1] else lines
  }

  // ---- The scanner ----

  datatype Scanner = Scanner(depth: int, inStr: bool, escape: bool)

  const START := Scanner(0, false, false)

  /** This character closes the object the scan started with. */
  predicate Closes(st: Scanner, ch: char) {
    !st.inStr && ch == '}' && st.depth == 1
  }

  function Read(st: Scanner, ch: char): Scanner {
    if st.inStr then
      if st.escape then st.(escape := false)
      else if ch == '\\' then st.(escape := true)
      else if ch == '"' then st.(inStr := false)
      else st
    else if ch == '"' then st.(inStr := true)
    else if ch == '{' then st.(depth := st.depth + 1)
    else if ch == '}' then st.(depth := st.depth - 1)
    else st
  }

  /** How many characters of `s` belong to the span: up to the closing brace, or all of them. */
  function SpanLength(s: string, st: Scanner): (n: nat)
    ensures n <= |s|
  {
    if s == "" then 0
    else if Closes(st, s[0]) then 1
    else 1 + SpanLength(s[1..], Read(st, s[0]))
  }

  function Span(text: string): string {
    match IndexOf(text, '{')
    case None => text
    case Some(start) => text[start..][..SpanLength(text[start..], START)]
  }

  /** extract_json_span. */
  function JsonSpan(text: string): string {
    Span(Unfence(Strip(text)))
  }

  /** Where the span ends when the scan has reached position `i` of `t`. */
  function SpanEnd(t: string, i: nat, st: Scanner): nat
    requires i <= |t|
    decreases |t| - i
  {
    if i == |t| then i
    else if Closes(st, t[i]) then i + 1
    else SpanEnd(t, i + 1, Read(st, t[i]))
  }

  lemma {:induction false} SpanEndIsLength(t: string, i: nat, st: Scanner)
    requires i <= |t|
    ensures SpanEnd(t, i, st) == i + SpanLength(t[i..], st)
    decreases |t| - i
  {
    if i < |t| && !Closes(st, t[i]) {
      assert t[i..][1..] == t[i + 1..];
      SpanEndIsLength(t, i + 1, Read(st, t[i]));
    }
  }

  /** The loop of extract_json_span: one pass with three variables. */
  method Scan(t: string, start: nat) returns (end: nat)
    requires start <= |t|
    ensures end == SpanEnd(t, start, START)
  {
    var depth, inStr, escape := 0, false, false;
    var i := start;
    while i < |t|
      invariant start <= i <= |t|
      invariant SpanEnd(t, start, START) == SpanEnd(t, i, Scanner(depth, inStr, escape))
    {
      var ch := t[i];
      if inStr {
        if escape {
          escape := false;
        } else if ch == '\\' {
          escape := true;
        } else if ch == '"' {
          inStr := false;
        }
      } else if ch == '"' {
        inStr := true;
      } else if ch == '{' {
        depth := depth + 1;
      } else if ch == '}' {
        depth := depth - 1;
        if depth == 0 {
          return i + 1;
        }
      }
      i := i + 1;
    }
    return |t|;
  }

  /** extract_json_span as the code computes it. */
  method ExtractJsonSpan(text: string) returns (span: string)
    ensures span == JsonSpan(text)
  {
    var t := Unfence(Strip(text));
    var found := IndexOf(t, '{');
    if found.None? {
      return t;
    }
    var start := found.value;
    var end := Scan(t, start);
    SpanEndIsLength(t, start, START);
    assert t[start..end] == t[start..][..end - start];
    return t[start..end];
  }

  // ---- What the scanner does on printed JSON ----

  function Feed(st: Scanner, s: string): Scanner
    decreases |s|
  {
    if s == "" then st else Feed(Read(st, s[0]), s[1..])
  }

  /** No prefix of `s` closes the span. */
  predicate Quiet(st: Scanner, s: string)
    decreases |s|
  {
    s == "" || (!Closes(st, s[0]) && Quiet(Read(st, s[0]), s[1..]))
  }

  /** `s` is read without closing the span and leaves the scanner as it was. */
  predicate Neutral(st: Scanner, s: string) {
    Quiet(st, s) && Feed(st, s) == st
  }

  lemma {:induction false} QuietPrefix(st: Scanner, a: string, b: string)
    requires Quiet(st, a)
    ensures Quiet(st, a + b) == Quiet(Feed(st, a), b)
    ensures Feed(st, a + b) == Feed(Feed(st, a), b)
    ensures SpanLength(a + b, st) == |a| + SpanLength(b, Feed(st, a))
    decreases |a|
  {
    if a == "" {
      assert a + b == b;
    } else {
      assert (a + b)[1..] == a[1..] + b;
      QuietPrefix(Read(st, a[0]), a[1..], b);
    }
  }

  lemma NeutralConcat(st: Scanner, a: string, b: string)
    requires Neutral(st, a) && Neutral(st, b)
    ensures Neutral(st, a + b)
  {
    QuietPrefix(st, a, b);
  }

  predicate Outside(st: Scanner) {
    st.depth >= 1 && !st.inStr && !st.escape
  }

  lemma {:induction false} PunctuationIsNeutral(st: Scanner, s: string)
    requires Outside(st)
    requires forall i :: 0 <= i < |s| ==> s[i] != '"' && s[i] != '{' && s[i] != '}'
    ensures Neutral(st, s)
  {
    if s != "" {
      PunctuationIsNeutral(st, s[1..]);
    }
  }

  lemma {:induction false} CharsStayInside(st: Scanner, chars: seq<Char>)
    requires st.inStr && !st.escape && LegalChars(chars)
    ensures Neutral(st, PrintChars(chars))
  {
    if chars != [] {
      CharsStayInside(st, chars[1..]);
      CharStaysInside(st, chars[0]);
      NeutralConcat(st, PrintChar(chars[0]), PrintChars(chars[1..]));
    }
  }

  lemma CharStaysInside(st: Scanner, ch: Char)
    requires st.inStr && !st.escape && LegalChar(ch)
    ensures Neutral(st, PrintChar(ch))
  {
    match ch
    case Plain(c) =>
      assert PrintChar(ch)[1..] == "";
    case Escaped(c) =>
      var escaping := st.(escape := true);
      assert PrintChar(ch)[1..] == [c];
      assert [c][1..] == "";
      assert Read(st, '\\') == escaping && Read(escaping, c) == st;
      assert Feed(escaping, [c]) == Feed(st, "");
    case Unicode(hex) =>
      assert Read(Read(st, '\\'), 'u') == st;
      assert PrintChar(ch)[1..] == ['u'] + hex;
      assert (['u'] + hex)[1..] == hex;
      HexIsNeutral(st, hex);
  }

  lemma {:induction false} HexIsNeutral(st: Scanner, hex: string)
    requires st.inStr && !st.escape && HexDigits(hex)
    ensures Neutral(st, hex)
  {
    if hex != "" {
      HexIsNeutral(st, hex[1..]);
    }
  }

  lemma QuotedIsNeutral(st: Scanner, chars: seq<Char>)
    requires Outside(st) && LegalChars(chars)
    ensures Neutral(st, Quote(chars))
  {
    var inside := st.(inStr := true);
    var body := PrintChars(chars);
    CharsStayInside(inside, chars);
    QuietPrefix(inside, body, "\"");
    assert "\""[1..] == "";
    assert Feed(inside, "\"") == st && Quiet(inside, "\"");
    assert Quote(chars)[1..] == body + "\"";
  }

  /** A value inside an object is read as a whole: strings, escapes and nested braces included. */
  lemma {:induction false} ValueIsNeutral(st: Scanner, v: Json)
    requires Outside(st) && Legal(v)
    ensures Neutral(st, Print(v))
    decreases v, 1
  {
    match v
    case Null => PunctuationIsNeutral(st, "null");
    case True => PunctuationIsNeutral(st, "true");
    case False => PunctuationIsNeutral(st, "false");
    case Number(_, _, _, _) => PunctuationIsNeutral(st, PrintNumber(v));
    case String(chars) => QuotedIsNeutral(st, chars);
    case Array(blank, items) =>
      ItemsAreNeutral(st, items);
      Bracketed(st, blank, PrintItems(items));
    case Object(blank, members) =>
      ObjectBodyIsNeutral(st.(depth := st.depth + 1), blank, members);
      Braced(st, blank + PrintMembers(members));
      assert Print(v) == "{" + ((blank + PrintMembers(members)) + "}");
  }

  lemma Bracketed(st: Scanner, blank: string, items: string)
    requires Outside(st) && Blank(blank) && Neutral(st, items)
    ensures Neutral(st, "[" + (blank + (items + "]")))
  {
    PunctuationIsNeutral(st, "[");
    PunctuationIsNeutral(st, blank);
    PunctuationIsNeutral(st, "]");
    NeutralConcat(st, items, "]");
    NeutralConcat(st, blank, items + "]");
    NeutralConcat(st, "[", blank + (items + "]"));
  }

  lemma Braced(st: Scanner, body: string)
    requires Outside(st) && Neutral(st.(depth := st.depth + 1), body)
    ensures Neutral(st, "{" + (body + "}"))
  {
    var inside := st.(depth := st.depth + 1);
    QuietPrefix(inside, body, "}");
    assert "}"[1..] == "";
    assert Feed(inside, "}") == Feed(st, "");
    assert ("{" + (body + "}"))[1..] == body + "}";
  }

  lemma ObjectBodyIsNeutral(st: Scanner, blank: string, members: Members)
    requires Outside(st) && Blank(blank) && LegalMembers(members)
    ensures Neutral(st, blank + PrintMembers(members))
    decreases members, 1
  {
    PunctuationIsNeutral(st, blank);
    MembersAreNeutral(st, members);
    NeutralConcat(st, blank, PrintMembers(members));
  }

  lemma {:induction false} ItemsAreNeutral(st: Scanner, items: Items)
    requires Outside(st) && LegalItems(items)
    ensures Neutral(st, PrintItems(items))
    decreases items, 0
  {
    match items
    case NoItem =>
    case Item(before, v, after, rest) =>
      var tail := if rest.NoItem? then "" else "," + PrintItems(rest);
      ItemsAreNeutral(st, rest);
      PunctuationIsNeutral(st, ",");
      NeutralConcat(st, ",", PrintItems(rest));
      PunctuationIsNeutral(st, after);
      NeutralConcat(st, after, tail);
      ValueIsNeutral(st, v);
      NeutralConcat(st, Print(v), after + tail);
      PunctuationIsNeutral(st, before);
      NeutralConcat(st, before, Print(v) + (after + tail));
  }

  lemma {:induction false} MembersAreNeutral(st: Scanner, members: Members)
    requires Outside(st) && LegalMembers(members)
    ensures Neutral(st, PrintMembers(members))
    decreases members, 0
  {
    match members
    case NoMember =>
    case Member(before, name, afterName, beforeValue, v, after, rest) =>
      var tail := if rest.NoMember? then "" else "," + PrintMembers(rest);
      MembersAreNeutral(st, rest);
      PunctuationIsNeutral(st, ",");
      NeutralConcat(st, ",", PrintMembers(rest));
      PunctuationIsNeutral(st, after);
      NeutralConcat(st, after, tail);
      ValueIsNeutral(st, v);
      NeutralConcat(st, Print(v), after + tail);
      PunctuationIsNeutral(st, beforeValue);
      NeutralConcat(st, beforeValue, Print(v) + (after + tail));
      PunctuationIsNeutral(st, ":");
      NeutralConcat(st, ":", beforeValue + (Print(v) + (after + tail)));
      PunctuationIsNeutral(st, afterName);
      NeutralConcat(st, afterName, ":" + (beforeValue + (Print(v) + (after + tail))));
      QuotedIsNeutral(st, name);
      NeutralConcat(st, Quote(name), afterName + (":" + (beforeValue + (Print(v) + (after + tail)))));
      PunctuationIsNeutral(st, before);
      NeutralConcat(st, before, Quote(name) + (afterName + (":" + (beforeValue + (Print(v) + (after + tail))))));
  }

  /** From its own opening brace on, a printed object is exactly the span, whatever follows it. */
  lemma ObjectIsTheSpan(v: Json, suffix: string)
    requires v.Object? && Legal(v)
    ensures SpanLength(Print(v) + suffix, START) == |Print(v)|
  {
    var body := v.blank + PrintMembers(v.members);
    ObjectBodyIsNeutral(INSIDE, v.blank, v.members);
    assert Print(v) == "{" + (body + "}");
    BracedSpan(body, suffix);
  }

  /** The scanner right after the opening brace. */
  const INSIDE := Scanner(1, false, false)

  lemma BracedSpan(body: string, suffix: string)
    requires Neutral(INSIDE, body)
    ensures SpanLength("{" + (body + "}") + suffix, START) == |body| + 2
  {
    var rest := "}" + suffix;
    QuietPrefix(INSIDE, body, rest);
    var text := "{" + (body + "}") + suffix;
    assert text[0] == '{' && text[1..] == body + rest;
    assert Read(START, '{') == INSIDE;
    assert SpanLength(rest, INSIDE) == 1;
  }

  lemma SpanAfterProse(prefix: string, v: Json, suffix: string)
    requires v.Object? && Legal(v) && '{' !in prefix
    ensures Span(prefix + Print(v) + suffix) == Print(v)
  {
    var text := prefix + Print(v) + suffix;
    ObjectIsTheSpan(v, suffix);
    assert text[|prefix|] == '{';
    assert text[..|prefix|] == prefix;
    IndexOfFirst(text, '{', |prefix|);
    assert text[|prefix|..] == Print(v) + suffix;
  }

  lemma TrimKeepsOthers(s: string, c: char)
    requires c !in s
    ensures c !in TrimLeft(s, PythonSpace) && c !in TrimRight(s, PythonSpace)
  {
    TrimmedLeftIsPart(s, PythonSpace);
  }

  lemma ObjectIsVisible(v: Json)
    requires v.Object?
    ensures Print(v) != "" && Print(v)[0] == '{' && Print(v)[|Print(v)| - 1] == '}'
  {
  }

  lemma NoFence(left: string, visible: string, right: string)
    requires !StartsWith(left, FENCE) && visible != "" && visible[0] == '{'
    ensures !StartsWith(left + visible + right, FENCE)
  {
    var text := left + visible + right;
    if |left| >= 3 {
      assert text[..3] == left[..3];
    } else {
      assert text[|left|] == '{' && FENCE[|left|] == '`';
    }
  }

  /**
   * For every JSON object, every way of printing it, every prose before it without "{" that does not begin
   * with a code fence, and every text after it, the scanner returns exactly the printed object.
   */
  lemma RecoversObject(prefix: string, v: Json, suffix: string)
    requires v.Object? && Legal(v) && '{' !in prefix
    requires !StartsWith(TrimLeft(prefix, PythonSpace), FENCE)
    ensures JsonSpan(prefix + Print(v) + suffix) == Print(v)
  {
    ObjectIsVisible(v);
    TrimAround(prefix, Print(v), suffix, PythonSpace);
    var left, right := TrimLeft(prefix, PythonSpace), TrimRight(suffix, PythonSpace);
    var text := left + Print(v) + right;
    TrimKeepsOthers(prefix, '{');
    NoFence(left, Print(v), right);
    SpanAfterProse(left, v, right);
  }

  // ---- The same inside a code fence ----

  /** "\n" is the only line break of `s`. */
  predicate PlainLines(s: string) {
    forall i :: 0 <= i < |s| ==> LineBreak(s[i]) ==> s[i] == '\n'
  }

  predicate PairAt(s: string) {
    |s| >= 2 && s[0] == '\r' && s[1] == '\n'
  }

  /** Every line break written as "\n", "\r\n" as one. */
  function Newlines(s: string): string {
    if s == "" then ""
    else if PairAt(s) then "\n" + Newlines(s[2..])
    else if LineBreak(s[0]) then "\n" + Newlines(s[1..])
    else [s[0]] + Newlines(s[1..])
  }

  /** The same before a "\n": a final "\r" belongs to that break. */
  function Relined(s: string): string {
    Newlines(Chomped(s))
  }

  function Chomped(s: string): string {
    if s != "" && s[|s| - 1] == '\r' then s[..|s| - 1] else s
  }

  lemma {:induction false} NewlinesConcat(a: string, b: string)
    requires a != "" && a[|a| - 1] == '\r' ==> b == "" || b[0] != '\n'
    ensures Newlines(a + b) == Newlines(a) + Newlines(b)
    decreases |a|
  {
    if a == "" {
      assert a + b == b;
    } else if PairAt(a) {
      assert (a + b)[2..] == a[2..] + b;
      NewlinesConcat(a[2..], b);
    } else {
      assert (a + b)[1..] == a[1..] + b;
      assert PairAt(a + b) ==> PairAt(a) || |a| == 1;
      NewlinesConcat(a[1..], b);
    }
  }

  lemma {:induction false} NewlinesOf(s: string)
    ensures PlainLines(Newlines(s)) && (PlainLines(s) ==> Newlines(s) == s)
    ensures forall i :: 0 <= i < |Newlines(s)| ==> Newlines(s)[i] == '\n' || Newlines(s)[i] in s
  {
    if s != "" {
      var k := if PairAt(s) then 2 else 1;
      NewlinesOf(s[k..]);
      assert PlainLines(s) ==> !PairAt(s);
      assert forall c :: c in s[k..] ==> c in s;
    }
  }

  lemma RelinedStep(s: string)
    requires s != "" && s != "\r"
    ensures Relined(s) == if PairAt(s) then "\n" + Relined(s[2..])
                          else if LineBreak(s[0]) then "\n" + Relined(s[1..])
                          else [s[0]] + Relined(s[1..])
  {
    var n := |s| - 1;
    var k := if PairAt(s) then 2 else 1;
    if s[n] == '\r' {
      assert k <= n && s[..n][k..] == s[k..][..n - k];
      assert PairAt(s[..n]) <==> PairAt(s);
    }
  }

  lemma {:induction false} LinesBeforeFence(s: string)
    ensures SplitLines(s + "\n```") == SplitOn(Relined(s), '\n') + [FENCE]
    decreases |s|
  {
    var text := s + "\n```";
    LastLine(FENCE);
    if s == "" {
      assert text[1..] == FENCE;
    } else if s == "\r" {
      assert text[2..] == FENCE && s[..0] == "";
    } else {
      RelinedStep(s);
      SamePair(s);
      var k := if PairAt(s) then 2 else 1;
      assert text[k..] == s[k..] + "\n```";
      LinesBeforeFence(s[k..]);
      LineStep(s[0], Relined(s[k..]), PairAt(s));
    }
  }

  lemma SamePair(s: string)
    requires s != "" && s != "\r"
    ensures PairAt(s + "\n```") <==> PairAt(s)
  {
    var text := s + "\n```";
    assert text[0] == s[0] && (|s| == 1 ==> s == [s[0]]) && (|s| >= 2 ==> text[1] == s[1]);
  }

  lemma LineStep(c: char, rest: string, pair: bool)
    ensures var r := (if pair || LineBreak(c) then "\n" else [c]) + rest;
            SplitOn(r, '\n') == if pair || LineBreak(c) then [""] + SplitOn(rest, '\n')
                                else [[c] + SplitOn(rest, '\n')[0]] + SplitOn(rest, '\n')[1..]
  {
    var r := (if pair || LineBreak(c) then "\n" else [c]) + rest;
    assert r[1..] == rest;
  }

  lemma {:induction false} LastLine(line: string)
    requires line != "" && forall i :: 0 <= i < |line| ==> !LineBreak(line[i])
    ensures SplitLines(line) == [line]
  {
    if |line| > 1 {
      LastLine(line[1..]);
      assert [line[0]] + line[1..] == line;
    } else {
      assert line[1..] == "" && [line[0]] == line;
    }
  }

  lemma {:induction false} FirstLine(line: string, rest: string)
    requires forall i :: 0 <= i < |line| ==> !LineBreak(line[i])
    ensures SplitLines(line + "\n" + rest) == [line] + SplitLines(rest)
  {
    var text := line + "\n" + rest;
    if line == "" {
      assert text[1..] == rest;
    } else {
      assert text[1..] == line[1..] + "\n" + rest;
      FirstLine(line[1..], rest);
      assert [line[0]] + line[1..] == line;
    }
  }

  /** A code fence around the lines of `body`. */
  function Fenced(tag: string, body: string): string {
    FENCE + tag + "\n" + (body + "\n```")
  }

  lemma FencesDropped(first: string, middle: seq<string>)
    requires StartsWith(first, FENCE)
    ensures DropFences([first] + (middle + [FENCE])) == middle
  {
    var lines := [first] + (middle + [FENCE]);
    assert lines[1..] == middle + [FENCE];
    StripVisible(FENCE);
    assert (middle + [FENCE])[..|middle|] == middle;
  }

  lemma FencedLines(tag: string, body: string)
    requires forall i :: 0 <= i < |tag| ==> !LineBreak(tag[i])
    ensures SplitLines(Fenced(tag, body)) == [FENCE + tag] + (SplitOn(Relined(body), '\n') + [FENCE])
  {
    FirstLine(FENCE + tag, body + "\n```");
    LinesBeforeFence(body);
  }

  /** A fenced answer: the tag line and the closing fence go, the lines between are scanned, joined by "\n". */
  lemma UnfencedBody(tag: string, body: string)
    requires forall i :: 0 <= i < |tag| ==> !LineBreak(tag[i])
    ensures Unfence(Fenced(tag, body)) == Strip(Relined(body))
  {
    FencedLines(tag, body);
    FencesDropped(FENCE + tag, SplitOn(Relined(body), '\n'));
    JoinUndoesSplit(Relined(body), '\n');
    assert StartsWith(Fenced(tag, body), FENCE);
  }

  lemma StripAround(blank: string, text: string, after: string)
    requires text != "" && !PythonSpace(text[0]) && !PythonSpace(text[|text| - 1])
    requires forall i :: 0 <= i < |blank| ==> PythonSpace(blank[i])
    requires forall i :: 0 <= i < |after| ==> PythonSpace(after[i])
    ensures Strip(blank + text + after) == text
  {
    TrimAround(blank, text, after, PythonSpace);
    AllBlank(blank);
    AllBlankRight(after);
    assert "" + text + "" == text;
  }

  lemma FencedIsVisible(tag: string, body: string)
    ensures var text := Fenced(tag, body); text != "" && text[0] == '`' && text[|text| - 1] == '`'
  {
  }

  /** The lines of an answer around an object are rewritten part by part. */
  lemma RelinedAround(prefix: string, core: string, suffix: string)
    requires core != "" && core[0] == '{' && core[|core| - 1] == '}'
    ensures Relined(prefix + core + suffix) == Newlines(prefix) + Newlines(core) + Relined(suffix)
  {
    var front := prefix + core;
    NewlinesConcat(prefix, core);
    assert front[|front| - 1] == '}';
    RelinedConcat(front, suffix);
  }

  lemma RelinedConcat(a: string, b: string)
    requires a != "" && a[|a| - 1] != '\r'
    ensures Relined(a + b) == Newlines(a) + Relined(b)
  {
    ChompedConcat(a, b);
    NewlinesConcat(a, Chomped(b));
  }

  lemma ChompedConcat(a: string, b: string)
    requires a != "" && a[|a| - 1] != '\r'
    ensures Chomped(a + b) == a + Chomped(b)
  {
    var s := a + b;
    assert s[|s| - 1] == if b == "" then a[|a| - 1] else b[|b| - 1];
  }

  lemma RelinedIsPlain(s: string)
    ensures PlainLines(Relined(s))
  {
    NewlinesOf(Chomped(s));
  }

  /** Stripping and taking the span bring no new line breaks. */
  lemma SpanIsPlain(t: string)
    requires PlainLines(t)
    ensures PlainLines(Span(Strip(t)))
  {
    TrimmedLeftIsPart(t, PythonSpace);
    var left := TrimLeft(t, PythonSpace);
    var text := Strip(t);
    assert text <= left;
    assert PlainLines(text);
    match IndexOf(text, '{')
    case None =>
    case Some(start) => assert PlainLines(text[start..]);
  }

  /**
   * Inside a code fence, with any tag and any prose around it, the printed object is returned exactly when its only
   * line breaks are "\n": any other break, even inside a string, comes back as "\n".
   */
  lemma RecoversFencedObject(blank: string, tag: string, prefix: string, v: Json, suffix: string, after: string)
    requires v.Object? && Legal(v) && '{' !in prefix
    requires forall i :: 0 <= i < |tag| ==> !LineBreak(tag[i])
    requires forall i :: 0 <= i < |blank| ==> PythonSpace(blank[i])
    requires forall i :: 0 <= i < |after| ==> PythonSpace(after[i])
    ensures JsonSpan(blank + Fenced(tag, prefix + Print(v) + suffix) + after) == Print(v) <==> PlainLines(Print(v))
  {
    var body := prefix + Print(v) + suffix;
    FencedIsVisible(tag, body);
    StripAround(blank, Fenced(tag, body), after);
    UnfencedBody(tag, body);
    RelinedIsPlain(body);
    SpanIsPlain(Relined(body));
    if PlainLines(Print(v)) {
      ObjectIsVisible(v);
      RelinedAround(prefix, Print(v), suffix);
      NewlinesOf(prefix);
      NewlinesOf(Print(v));
      SpanOfStripped(Newlines(prefix), v, Relined(suffix));
    }
  }

  /** An empty object with "\r\n" between its braces is legal JSON and is not returned as printed. */
  lemma FencedExample()
    ensures var v := Object("\r\n", NoMember);
            && Legal(v) && Print(v) == "{\r\n}" && JsonSpan(Fenced("json", Print(v))) != Print(v)
  {
    var v := Object("\r\n", NoMember);
    assert Print(v) == "{\r\n}" && LineBreak(Print(v)[1]);
    assert "" + Fenced("json", "" + Print(v) + "") + "" == Fenced("json", Print(v));
    RecoversFencedObject("", "json", "", v, "", "");
  }

  lemma SpanOfStripped(prefix: string, v: Json, suffix: string)
    requires v.Object? && Legal(v) && '{' !in prefix
    ensures Span(Strip(prefix + Print(v) + suffix)) == Print(v)
  {
    ObjectIsVisible(v);
    TrimAround(prefix, Print(v), suffix, PythonSpace);
    TrimKeepsOthers(prefix, '{');
    SpanAfterProse(TrimLeft(prefix, PythonSpace), v, TrimRight(suffix, PythonSpace));
  }

  lemma {:induction false} AllBlank(s: string)
    requires forall i :: 0 <= i < |s| ==> PythonSpace(s[i])
    ensures TrimLeft(s, PythonSpace) == ""
  {
    if s != "" {
      AllBlank(s[1..]);
    }
  }

  lemma {:induction false} AllBlankRight(s: string)
    requires forall i :: 0 <= i < |s| ==> PythonSpace(s[i])
    ensures TrimRight(s, PythonSpace) == ""
  {
    if s != "" {
      AllBlankRight(s[..|s| - 1]);
    }
  }

  // ---- The span of a span ----

  lemma {:induction false} SpanOfSpan(s: string, st: Scanner)
    ensures SpanLength(s[..SpanLength(s, st)], st) == SpanLength(s, st)
    ensures SpanLength(s, st) < |s| ==> s[SpanLength(s, st) - 1] == '}'
  {
    if s != "" && !Closes(st, s[0]) {
      var n := SpanLength(s, st);
      assert s[..n][1..] == s[1..][..n - 1];
      SpanOfSpan(s[1..], Read(st, s[0]));
    }
  }

  lemma StripsClean(text: string)
    ensures var t := Unfence(Strip(text)); t != "" ==> !PythonSpace(t[0]) && !PythonSpace(t[|t| - 1])
  {
    StripEnds(text);
    StripEnds(JoinWith(DropFences(SplitLines(Strip(text))), '\n'));
  }

  lemma StripEnds(s: string)
    ensures Strip(s) != "" ==> !PythonSpace(Strip(s)[0]) && !PythonSpace(Strip(s)[|Strip(s)| - 1])
  {
    var left := TrimLeft(s, PythonSpace);
    assert Strip(s) <= left;
  }

  /** Extracting again changes nothing, exactly when what was extracted opens no code fence of its own. */
  lemma SpanIsStable(text: string)
    ensures JsonSpan(JsonSpan(text)) == JsonSpan(text) <==> !StartsWith(JsonSpan(text), FENCE)
  {
    var t, r := Unfence(Strip(text)), JsonSpan(text);
    StripsClean(text);
    if '{' in t {
      ObjectSpanIsStable(t);
      assert FENCE[0] == '`';
    } else {
      TextIsStable(t);
    }
  }

  lemma TextIsStable(r: string)
    requires '{' !in r && (r != "" ==> !PythonSpace(r[0]) && !PythonSpace(r[|r| - 1]))
    ensures Span(r) == r && (JsonSpan(r) == r <==> !StartsWith(r, FENCE))
  {
    if r != "" {
      StripVisible(r);
    }
    if StartsWith(r, FENCE) {
      UnfenceShrinks(r);
    }
  }

  lemma ObjectSpanIsStable(t: string)
    requires '{' in t && !PythonSpace(t[|t| - 1])
    ensures Span(t) != "" && Span(t)[0] == '{' && JsonSpan(Span(t)) == Span(t)
  {
    var s := t[IndexOf(t, '{').value..];
    var r := Span(t);
    SpanOfSpan(s, START);
    assert r == s[..SpanLength(s, START)];
    assert r[0] == '{' && !PythonSpace(r[|r| - 1]);
    SpanOfVisible(r);
  }

  // ---- Dropping fences shortens ----

  lemma {:induction false} LinesFit(s: string)
    requires s != ""
    ensures SplitLines(s) != [] && |JoinWith(SplitLines(s), '\n')| <= |s|
    decreases |s|
  {
    var k := if PairAt(s) then 2 else 1;
    if s[k..] != "" {
      LinesFit(s[k..]);
    }
  }

  lemma {:induction false} LongFirstLine(s: string, k: nat)
    requires k <= |s| && s != "" && forall i :: 0 <= i < k ==> !LineBreak(s[i])
    ensures SplitLines(s) != [] && s[..k] <= SplitLines(s)[0]
  {
    if k > 0 {
      if |s| > 1 {
        LongFirstLine(s[1..], k - 1);
      }
      assert s[..k] == [s[0]] + s[1..][..k - 1];
    }
  }

  lemma {:induction false} JoinLength(lines: seq<string>)
    ensures |lines| >= 1 ==> |JoinWith(lines[1..], '\n')| + |lines[0]| <= |JoinWith(lines, '\n')|
    ensures |lines| >= 1 ==> |JoinWith(lines[..|lines| - 1], '\n')| <= |JoinWith(lines, '\n')|
  {
    if |lines| >= 2 {
      JoinLength(lines[1..]);
      assert lines[1..][..|lines| - 2] == lines[..|lines| - 1][1..];
    }
  }

  lemma UnfenceShrinks(s: string)
    requires StartsWith(s, FENCE)
    ensures |Unfence(s)| < |s|
  {
    LinesFit(s);
    assert s[..3] == FENCE;
    assert forall i :: 0 <= i < 3 ==> s[i] == s[..3][i];
    LongFirstLine(s, 3);
    DropShrinks(SplitLines(s));
    StripShortens(JoinWith(DropFences(SplitLines(s)), '\n'));
  }

  lemma DropShrinks(lines: seq<string>)
    requires lines != [] && StartsWith(lines[0], FENCE)
    ensures |JoinWith(DropFences(lines), '\n')| < |JoinWith(lines, '\n')|
  {
    JoinLength(lines);
    JoinLength(lines[1..]);
  }

  lemma StripShortens(s: string)
    ensures |Strip(s)| <= |s|
  {
    TrimmedLeftIsPart(s, PythonSpace);
  }

  lemma SpanOfVisible(r: string)
    requires r != "" && r[0] == '{' && !PythonSpace(r[|r| - 1])
    ensures JsonSpan(r) == r[..SpanLength(r, START)]
  {
    StripVisible(r);
    assert FENCE[0] == '`';
    assert !StartsWith(r, FENCE);
    SpanFromStart(r);
  }

  lemma StripVisible(r: string)
    requires r != "" && !PythonSpace(r[0]) && !PythonSpace(r[|r| - 1])
    ensures Strip(r) == r
  {
    assert "" + r + "" == r;
    TrimAround("", r, "", PythonSpace);
  }

  lemma SpanFromStart(r: string)
    requires r != "" && r[0] == '{'
    ensures Span(r) == r[..SpanLength(r, START)]
  {
    assert IndexOf(r, '{') == Some(0);
    assert r[0..] == r;
  }
}
