/** The code highlighter, from text to escaped and styled markup. */
module Highlight {
  // Text cut into tokens by one ordered alternation, each printed escaped and some wrapped in a span.

  import opened Graphs

  // ---- escaping ----

  function EscapeChar(c: char): string {
    if c == '&' then "&amp;"
    else if c == '<' then "&lt;"
    else if c == '>' then "&gt;"
    else if c == '"' then "&quot;"
    else if c == '\'' then "&#39;"
    else [c]
  }

  function Escape(s: string): string {
    if s == [] then [] else EscapeChar(s[0]) + Escape(s[1..])
  }

  predicate StartsWith(s: string, prefix: string) {
    |prefix| <= |s| && s[..|prefix|] == prefix
  }

  /** The character the text starts by naming, if it does. */
  function Named(s: string): Option<char> {
    if StartsWith(s, "&amp;") then Some('&')
    else if StartsWith(s, "&lt;") then Some('<')
    else if StartsWith(s, "&gt;") then Some('>')
    else if StartsWith(s, "&quot;") then Some('"')
    else if StartsWith(s, "&#39;") then Some('\'')
    else None
  }

  /** What a browser shows for escaped text. */
  function Decode(s: string): string {
    if s == [] then []
    else if Named(s).Some? then [Named(s).value] + Decode(s[|EscapeChar(Named(s).value)|..])
    else [s[0]] + Decode(s[1..])
  }

  lemma NamedEscape(c: char, rest: string)
    ensures Named(EscapeChar(c) + rest) == if c in "&<>\"'" then Some(c) else None
  {
    var e := EscapeChar(c);
    assert StartsWith(e + rest, e) && (e + rest)[0] == e[0];
    if |e| > 1 {
      assert (e + rest)[1] == e[1];
    }
  }

  lemma DecodeChar(c: char, rest: string)
    ensures Decode(EscapeChar(c) + rest) == [c] + Decode(rest)
  {
    NamedEscape(c, rest);
    assert (EscapeChar(c) + rest)[|EscapeChar(c)|..] == rest;
  }

  /** One more character in front, on both sides. */
  lemma DecodeCons(c: char, s: string, tail: string, shown: string)
    requires s == EscapeChar(c) + tail && Decode(tail) == shown
    ensures Decode(s) == [c] + shown
  {
    DecodeChar(c, tail);
  }

  lemma Assoc(a: string, b: string, c: string)
    ensures (a + b) + c == a + (b + c)
  {
  }

  lemma EscapeCons(s: string, rest: string)
    requires s != []
    ensures Escape(s) + rest == EscapeChar(s[0]) + (Escape(s[1..]) + rest)
  {
    Assoc(EscapeChar(s[0]), Escape(s[1..]), rest);
  }

  /** Escaping is undone by decoding. */
  lemma {:induction false} EscapeRoundTrip(s: string, rest: string)
    ensures Decode(Escape(s) + rest) == s + Decode(rest)
  {
    if s == [] {
      assert Escape(s) + rest == rest;
    } else {
      EscapeRoundTrip(s[1..], rest);
      EscapeCons(s, rest);
      Assoc([s[0]], s[1..], Decode(rest));
      assert s == [s[0]] + s[1..];
      DecodeCons(s[0], Escape(s) + rest, Escape(s[1..]) + rest, s[1..] + Decode(rest));
    }
  }

  lemma {:induction false} EscapeHidesBrackets(s: string)
    ensures '<' !in Escape(s) && '>' !in Escape(s) && '"' !in Escape(s) && '\'' !in Escape(s)
  {
    if s != [] {
      EscapeHidesBrackets(s[1..]);
    }
  }

  // ---- the alternation ----

  predicate Digit(c: char) {
    '0' <= c <= '9'
  }

  predicate Letter(c: char) {
    'a' <= c <= 'z' || 'A' <= c <= 'Z' || c == '_'
  }

  predicate Word(c: char) {
    Letter(c) || Digit(c)
  }

  predicate LineTerminator(c: char) {
    c == '\n' || c == '\r' || c == '\U{2028}' || c == '\U{2029}'
  }

  predicate Space(c: char) {
    c in " \t\n\U{0B}\U{0C}\r\U{A0}\U{1680}\U{2028}\U{2029}\U{202F}\U{205F}\U{3000}\U{FEFF}" || '\U{2000}' <= c <= '\U{200A}'
  }

  /** The end of the longest stretch from `p` of characters in the class. */
  function Run(code: string, p: nat, class_: char -> bool): (e: nat)
    requires p <= |code|
    ensures p <= e <= |code|
    ensures forall i :: p <= i < e ==> class_(code[i])
    ensures e < |code| ==> !class_(code[e])
    decreases |code| - p
  {
    if p < |code| && class_(code[p]) then Run(code, p + 1, class_) else p
  }

  predicate At(code: string, p: nat, text: string) {
    p + |text| <= |code| && code[p..p + |text|] == text
  }

  /** The first end of a block comment, from `p` on. */
  function BlockEnd(code: string, p: nat): (e: Option<nat>)
    requires p <= |code|
    ensures e.Some? ==> p < e.value <= |code| && e.value >= p + 2 && At(code, e.value - 2, "*/")
    ensures forall q :: p <= q < (if e.Some? then e.value - 2 else |code|) ==> !At(code, q, "*/")
    decreases |code| - p
  {
    if At(code, p, "*/") then Some(p + 2) else if p < |code| then BlockEnd(code, p + 1) else None
  }

  /** The closing quote, past escaped characters; an escaped line end is none. */
  function QuoteEnd(code: string, p: nat, quote: char): (e: Option<nat>)
    requires p <= |code|
    ensures e.Some? ==> p < e.value <= |code|
    decreases |code| - p
  {
    if p == |code| then None
    else if code[p] == quote then Some(p + 1)
    else if code[p] != '\\' then QuoteEnd(code, p + 1, quote)
    else if p + 1 < |code| && !LineTerminator(code[p + 1]) then QuoteEnd(code, p + 2, quote)
    else None
  }

  /** From `p` to `e` one by one a plain character or a backslash with the character after it. */
  predicate Pieces(code: string, p: nat, e: nat, quote: char)
    requires p <= e <= |code|
    decreases e - p
  {
    || p == e
    || (code[p] != quote && code[p] != '\\' && Pieces(code, p + 1, e, quote))
    || (code[p] == '\\' && p + 2 <= e && !LineTerminator(code[p + 1]) && Pieces(code, p + 2, e, quote))
  }

  /** A quoted text ends with the first quote that is not escaped: what is between can be read piece by piece. */
  lemma {:induction false} QuoteEnds(code: string, p: nat, quote: char, e: nat)
    requires p <= e < |code| && quote != '\\'
    ensures QuoteEnd(code, p, quote) == Some(e + 1) <==> code[e] == quote && Pieces(code, p, e, quote)
    decreases e - p
  {
    if p < e && code[p] != quote {
      if code[p] != '\\' {
        QuoteEnds(code, p + 1, quote, e);
      } else if p + 2 <= e {
        QuoteEnds(code, p + 2, quote, e);
      }
    }
  }

  function Comment(code: string, p: nat): (e: Option<nat>)
    requires p < |code|
    ensures e.Some? ==> p < e.value <= |code|
  {
    if code[p] == '#' then Some(Run(code, p + 1, c => c != '\n'))
    else if At(code, p, "//") then Some(Run(code, p + 2, c => c != '\n'))
    else if At(code, p, "/*") then BlockEnd(code, p + 2)
    else None
  }

  function Quoted(code: string, p: nat): (e: Option<nat>)
    requires p < |code|
    ensures e.Some? ==> p < e.value <= |code|
  {
    if code[p] == '`' || code[p] == '"' || code[p] == '\'' then QuoteEnd(code, p + 1, code[p]) else None
  }

  function Argument(code: string, p: nat): (e: Option<nat>)
    requires p < |code|
    ensures e.Some? ==> p < e.value <= |code|
  {
    if At(code, p, "${") && Run(code, p + 2, c => c != '}') < |code| then Some(Run(code, p + 2, c => c != '}') + 1)
    else if code[p] == '$' && Run(code, p + 1, Digit) > p + 1 then Some(Run(code, p + 1, Digit))
    else if At(code, p, "{{") && At(code, Run(code, p + 2, c => c != '}'), "}}") then Some(Run(code, p + 2, c => c != '}') + 2)
    else None
  }

  /** No word character goes on at `p`. */
  predicate WordEnds(code: string, p: nat) {
    p >= |code| || !Word(code[p])
  }

  /** A number between word boundaries; a fraction running into a word is given back. */
  function Number(code: string, p: nat): (e: Option<nat>)
    requires p < |code|
    ensures e.Some? ==> p < e.value <= |code|
  {
    if !Digit(code[p]) || (p > 0 && Word(code[p - 1])) then None
    else
      var whole := Run(code, p + 1, Digit);
      if At(code, whole, ".") && Run(code, whole + 1, Digit) > whole + 1 && WordEnds(code, Run(code, whole + 1, Digit)) then
        Some(Run(code, whole + 1, Digit))
      else if WordEnds(code, whole) then Some(whole)
      else None
  }

  function Name(code: string, p: nat): (e: Option<nat>)
    requires p < |code|
    ensures e.Some? ==> p < e.value <= |code|
  {
    if Letter(code[p]) || code[p] == '$' then Some(Run(code, p + 1, c => Word(c) || c == '$')) else None
  }

  datatype Kind = Com | Str | Arg | Num | Ident

  datatype Token = Token(kind: Kind, start: nat, end: nat)

  /** The first alternative that matches at `p`. */
  function MatchAt(code: string, p: nat): (t: Option<Token>)
    requires p < |code|
    ensures t.Some? ==> t.value.start == p < t.value.end <= |code|
  {
    if Comment(code, p).Some? then Some(Token(Com, p, Comment(code, p).value))
    else if Quoted(code, p).Some? then Some(Token(Str, p, Quoted(code, p).value))
    else if Argument(code, p).Some? then Some(Token(Arg, p, Argument(code, p).value))
    else if Number(code, p).Some? then Some(Token(Num, p, Number(code, p).value))
    else if Name(code, p).Some? then Some(Token(Ident, p, Name(code, p).value))
    else None
  }

  /** A comment goes to the end of its line, or to its first closing mark. */
  lemma CommentMeans(code: string, p: nat)
    requires p < |code|
    ensures Comment(code, p).Some? <==>
            code[p] == '#' || At(code, p, "//") || (At(code, p, "/*") && exists q :: p + 2 <= q < |code| && At(code, q, "*/"))
    ensures Comment(code, p).Some? ==>
              var e := Comment(code, p).value;
              if At(code, p, "/*") then e >= p + 4 && At(code, e - 2, "*/") && forall q :: p + 2 <= q < e - 2 ==> !At(code, q, "*/")
              else (forall i :: p < i < e ==> code[i] != '\n') && (e < |code| ==> code[e] == '\n')
  {
    assert At(code, p, "/*") || At(code, p, "//") ==> code[p] == '/';
    assert At(code, p, "/*") ==> code[p + 1] == '*';
    assert At(code, p, "//") ==> code[p + 1] == '/';
  }

  /** A text goes to its first quote that is not escaped. */
  lemma QuotedMeans(code: string, p: nat, e: nat)
    requires p + 1 < e <= |code|
    ensures Quoted(code, p) == Some(e) <==>
            (code[p] == '`' || code[p] == '"' || code[p] == '\'') && code[e - 1] == code[p] && Pieces(code, p + 1, e - 1, code[p])
  {
    if code[p] == '`' || code[p] == '"' || code[p] == '\'' {
      QuoteEnds(code, p + 1, code[p], e - 1);
    }
  }

  /** A placeholder goes to its first brace, or both of them, or over the digits of an argument. */
  lemma ArgumentMeans(code: string, p: nat)
    requires p < |code| && Argument(code, p).Some?
    ensures var e := Argument(code, p).value;
            || (At(code, p, "${") && code[e - 1] == '}' && forall i :: p + 2 <= i < e - 1 ==> code[i] != '}')
            || (code[p] == '$' && p + 1 < e && (forall i :: p < i < e ==> Digit(code[i])) && (e < |code| ==> !Digit(code[e])))
            || (At(code, p, "{{") && e >= p + 4 && At(code, e - 2, "}}") && forall i :: p + 2 <= i < e - 2 ==> code[i] != '}')
  {
  }

  /** A name goes over all it can. */
  lemma NameMeans(code: string, p: nat)
    requires p < |code|
    ensures Name(code, p).Some? <==> Letter(code[p]) || code[p] == '$'
    ensures Name(code, p).Some? ==>
              var e := Name(code, p).value;
              (forall i :: p < i < e ==> Word(code[i]) || code[i] == '$') && (e < |code| ==> !Word(code[e]) && code[e] != '$')
  {
  }

  /** A number is digits, or digits, a point and digits; the fraction is taken whenever it ends as a word does. */
  lemma NumberMeans(code: string, p: nat)
    requires p < |code| && Number(code, p).Some?
    ensures var e := Number(code, p).value;
            || (forall i :: p <= i < e ==> Digit(code[i]))
            || exists d :: p < d < e - 1 && code[d] == '.' && (forall i :: p <= i < d ==> Digit(code[i])) && forall i :: d < i < e ==> Digit(code[i])
    ensures var whole := Run(code, p + 1, Digit);
            Number(code, p).value == whole ==>
              !(At(code, whole, ".") && Run(code, whole + 1, Digit) > whole + 1 && WordEnds(code, Run(code, whole + 1, Digit)))
  {
    var whole := Run(code, p + 1, Digit);
    if Number(code, p).value != whole {
      assert code[whole] == '.';
    }
  }

  /** The leftmost match from `p` on: nothing matches before it, and without it nothing matches at all. No
      match is empty. */
  function Next(code: string, p: nat): (t: Option<Token>)
    requires p <= |code|
    ensures t.Some? ==> p <= t.value.start < t.value.end <= |code| && MatchAt(code, t.value.start) == t
    ensures forall q :: p <= q < (if t.Some? then t.value.start else |code|) ==> MatchAt(code, q).None?
    decreases |code| - p
  {
    if p == |code| then None
    else if MatchAt(code, p).Some? then MatchAt(code, p)
    else Next(code, p + 1)
  }

  // ---- the printer ----

  const KEYWORDS: set<string> := {
    "const", "let", "var", "function", "def", "class", "return", "if", "elif", "else", "for", "while", "do", "in", "of", "import",
    "from", "export", "default", "new", "await", "async", "try", "except", "catch", "finally", "raise", "throw", "with", "as",
    "lambda", "yield", "and", "or", "not", "is", "None", "True", "False", "true", "false", "null", "undefined", "self", "this",
    "match", "case", "pass", "break", "continue"
  }

  /** The class of the span a token is wrapped in, if any. */
  function Style(code: string, t: Token): (style: Option<string>)
    requires t.start < t.end <= |code|
    ensures style.Some? ==> style.value in {"cd-com", "cd-str", "cd-arg", "cd-num", "cd-kw", "cd-fn"}
  {
    match t.kind
    case Com => Some("cd-com")
    case Str => Some("cd-str")
    case Arg => Some("cd-arg")
    case Num => Some("cd-num")
    case Ident =>
      if code[t.start..t.end] in KEYWORDS then Some("cd-kw")
      else if At(code, Run(code, t.end, Space), "(") then Some("cd-fn")
      else None
  }

  /** Which alternative matches is decided by the first characters. */
  lemma KindMeans(code: string, t: Token)
    requires t.start < t.end <= |code| && MatchAt(code, t.start) == Some(t)
    ensures var c := code[t.start];
            && (c == '#' || At(code, t.start, "//") || At(code, t.start, "/*") ==> t.kind == Com)
            && (c == '`' || c == '"' || c == '\'' ==> t.kind == Str)
            && (c == '{' ==> t.kind == Arg) && (c == '$' ==> t.kind == Arg || t.kind == Ident)
            && (Digit(c) ==> t.kind == Num) && (Letter(c) ==> t.kind == Ident)
  {
    var p := t.start;
    assert At(code, p, "//") || At(code, p, "/*") ==> code[p] == '/';
    assert At(code, p, "${") ==> code[p] == '$';
    assert At(code, p, "{{") ==> code[p] == '{';
  }

  /** What each class is for: comments by their first characters, texts by their quote, placeholders by their
      brace, numbers by their first digit, and of the names those that are keywords, and then those called. */
  lemma StyleMeans(code: string, t: Token)
    requires t.start < t.end <= |code| && MatchAt(code, t.start) == Some(t)
    ensures var c, style, text := code[t.start], Style(code, t), code[t.start..t.end];
            && (c == '#' || At(code, t.start, "//") || At(code, t.start, "/*") ==> style == Some("cd-com"))
            && (c == '`' || c == '"' || c == '\'' ==> style == Some("cd-str"))
            && (c == '{' ==> style == Some("cd-arg")) && (Digit(c) ==> style == Some("cd-num"))
            && (Letter(c) && text in KEYWORDS ==> style == Some("cd-kw"))
            && (Letter(c) && text !in KEYWORDS ==> style == if At(code, Run(code, t.end, Space), "(") then Some("cd-fn") else None)
  {
    KindMeans(code, t);
  }

  const CLOSE: string := "</span>"

  function OpenTag(style: string): string {
    "<span class=\"" + style + "\">"
  }

  function Print(code: string, t: Token): string
    requires t.start < t.end <= |code|
  {
    var text := Escape(code[t.start..t.end]);
    match Style(code, t)
    case None => text
    case Some(style) => OpenTag(style) + text + CLOSE
  }

  /** The markup of the text from `last` on. */
  function Markup(code: string, last: nat): string
    requires last <= |code|
    decreases |code| - last
  {
    match Next(code, last)
    case None => Escape(code[last..])
    case Some(t) => Escape(code[last..t.start]) + Print(code, t) + Markup(code, t.end)
  }

  lemma PrintOneMore(code: string, last: nat, t: Token, out: string)
    requires last <= |code| && Next(code, last) == Some(t)
    ensures out + Markup(code, last) == out + Escape(code[last..t.start]) + Print(code, t) + Markup(code, t.end)
  {
    Assoc(out, Escape(code[last..t.start]), Print(code, t));
    Assoc(out, Escape(code[last..t.start]) + Print(code, t), Markup(code, t.end));
  }

  method HighlightCode(code: string) returns (out: string)
    ensures out == Markup(code, 0)
  {
    out := "";
    var last := 0;
    var m := Next(code, last);
    while m.Some?
      invariant last <= |code| && m == Next(code, last)
      invariant out + Markup(code, last) == Markup(code, 0)
      decreases |code| - last
    {
      var t := m.value;
      PrintOneMore(code, last, t, out);
      out := out + Escape(code[last..t.start]);
      out := out + Print(code, t);
      last := t.end;
      m := Next(code, last);
    }
    out := out + Escape(code[last..]);
  }

  // ---- what is shown ----

  /** The markup without its tags. */
  function Text(markup: string): string
    decreases |markup|
  {
    if markup == [] then []
    else if markup[0] == '<' then Text(AfterTag(markup))
    else [markup[0]] + Text(markup[1..])
  }

  /** What follows the tag the markup starts with. */
  function AfterTag(markup: string): (rest: string)
    requires markup != []
    ensures |rest| < |markup|
  {
    if markup[0] == '>' || |markup| == 1 then markup[1..] else AfterTag(markup[1..])
  }

  /** The tags, in order. */
  function Tags(markup: string): seq<string>
    decreases |markup|
  {
    if markup == [] then []
    else if markup[0] == '<' then [markup[..|markup| - |AfterTag(markup)|]] + Tags(AfterTag(markup))
    else Tags(markup[1..])
  }

  lemma {:induction false} PlainText(text: string, rest: string)
    requires '<' !in text
    ensures Text(text + rest) == text + Text(rest) && Tags(text + rest) == Tags(rest)
  {
    if text == [] {
      assert text + rest == rest;
    } else {
      assert text[0] in text;
      assert (text + rest)[1..] == text[1..] + rest;
      PlainText(text[1..], rest);
    }
  }

  lemma {:induction false} OneTag(body: string, rest: string)
    requires '>' !in body
    ensures AfterTag(body + ">" + rest) == rest
  {
    if body == [] {
      assert body + ">" + rest == ">" + rest;
    } else {
      assert body[0] in body;
      assert (body + ">" + rest)[1..] == body[1..] + ">" + rest;
      OneTag(body[1..], rest);
    }
  }

  lemma TagFirst(tag: string, rest: string)
    requires |tag| >= 2 && tag[0] == '<' && tag[|tag| - 1] == '>' && '>' !in tag[..|tag| - 1]
    ensures Text(tag + rest) == Text(rest) && Tags(tag + rest) == [tag] + Tags(rest)
  {
    OneTag(tag[..|tag| - 1], rest);
    assert tag == tag[..|tag| - 1] + ">";
    assert tag + rest == tag[..|tag| - 1] + ">" + rest;
    assert (tag + rest)[..|tag|] == tag;
  }

  lemma ClosingTag(rest: string)
    ensures Text(CLOSE + rest) == Text(rest) && Tags(CLOSE + rest) == [CLOSE] + Tags(rest)
  {
    TagFirst(CLOSE, rest);
  }

  lemma OpeningTag(style: string, rest: string)
    requires '>' !in style
    ensures Text(OpenTag(style) + rest) == Text(rest) && Tags(OpenTag(style) + rest) == [OpenTag(style)] + Tags(rest)
  {
    var tag := OpenTag(style);
    assert tag[..|tag| - 1] == "<span class=\"" + style + "\"";
    TagFirst(tag, rest);
  }

  /** Spans one after the other, each closed before the next opens. */
  predicate SpansOnly(tags: seq<string>) {
    tags == [] ||
    (|tags| >= 2 && tags[0] in {OpenTag("cd-com"), OpenTag("cd-str"), OpenTag("cd-arg"), OpenTag("cd-num"), OpenTag("cd-kw"), OpenTag("cd-fn")}
     && tags[1] == CLOSE && SpansOnly(tags[2..]))
  }

  /** A span of plain text. */
  lemma SpanShows(style: string, text: string, rest: string)
    requires '>' !in style && '<' !in text
    ensures Text(OpenTag(style) + (text + (CLOSE + rest))) == text + Text(rest)
    ensures Tags(OpenTag(style) + (text + (CLOSE + rest))) == [OpenTag(style)] + ([CLOSE] + Tags(rest))
  {
    OpeningTag(style, text + (CLOSE + rest));
    PlainText(text, CLOSE + rest);
    ClosingTag(rest);
  }

  lemma SpanFlat(style: string, tags: seq<string>)
    requires style in {"cd-com", "cd-str", "cd-arg", "cd-num", "cd-kw", "cd-fn"} && SpansOnly(tags)
    ensures SpansOnly([OpenTag(style)] + ([CLOSE] + tags))
  {
    assert ([OpenTag(style)] + ([CLOSE] + tags))[2..] == tags;
  }

  lemma PrintShows(code: string, t: Token, rest: string)
    requires t.start < t.end <= |code|
    ensures Text(Print(code, t) + rest) == Escape(code[t.start..t.end]) + Text(rest)
    ensures SpansOnly(Tags(rest)) ==> SpansOnly(Tags(Print(code, t) + rest))
  {
    var text := Escape(code[t.start..t.end]);
    EscapeHidesBrackets(code[t.start..t.end]);
    match Style(code, t)
    case None => PlainText(text, rest);
    case Some(style) =>
      Assoc(text, CLOSE, rest);
      Assoc(OpenTag(style), text + CLOSE, rest);
      Assoc(OpenTag(style), text, CLOSE);
      SpanShows(style, text, rest);
      if SpansOnly(Tags(rest)) {
        SpanFlat(style, Tags(rest));
      }
  }

  lemma {:induction false} EscapeConcat(a: string, b: string)
    ensures Escape(a + b) == Escape(a) + Escape(b)
  {
    if a == [] {
      assert a + b == b;
    } else {
      assert (a + b)[1..] == a[1..] + b;
      EscapeConcat(a[1..], b);
    }
  }

  lemma EscapeThree(a: string, b: string, c: string, whole: string)
    requires whole == a + (b + c)
    ensures Escape(a) + (Escape(b) + Escape(c)) == Escape(whole)
  {
    EscapeConcat(b, c);
    EscapeConcat(a, b + c);
  }

  lemma EscapePieces(code: string, last: nat, start: nat, end: nat)
    requires last <= start <= end <= |code|
    ensures Escape(code[last..start]) + (Escape(code[start..end]) + Escape(code[end..])) == Escape(code[last..])
  {
    assert code[last..] == code[last..start] + (code[start..end] + code[end..]);
    EscapeThree(code[last..start], code[start..end], code[end..], code[last..]);
  }

  lemma PieceShows(code: string, last: nat, t: Token, rest: string)
    requires last <= t.start < t.end <= |code|
    requires Text(rest) == Escape(code[t.end..]) && SpansOnly(Tags(rest))
    ensures var whole := Escape(code[last..t.start]) + (Print(code, t) + rest);
            Text(whole) == Escape(code[last..]) && SpansOnly(Tags(whole))
  {
    EscapeHidesBrackets(code[last..t.start]);
    PlainText(Escape(code[last..t.start]), Print(code, t) + rest);
    PrintShows(code, t, rest);
    EscapePieces(code, last, t.start, t.end);
  }

  /** No text is lost, added or moved: the markup without its tags is the escaped code, and the only
      markup is flat, closed spans. */
  lemma {:induction false} MarkupShowsCode(code: string, last: nat)
    requires last <= |code|
    ensures Text(Markup(code, last)) == Escape(code[last..]) && SpansOnly(Tags(Markup(code, last)))
    decreases |code| - last
  {
    match Next(code, last)
    case None =>
      EscapeHidesBrackets(code[last..]);
      PlainText(Escape(code[last..]), "");
      assert Escape(code[last..]) + "" == Escape(code[last..]);
    case Some(t) =>
      var rest := Markup(code, t.end);
      MarkupShowsCode(code, t.end);
      PieceShows(code, last, t, rest);
      assert Markup(code, last) == Escape(code[last..t.start]) + (Print(code, t) + rest);
  }

  /** What a browser shows is the code itself. */
  lemma HighlightLosesNothing(code: string)
    ensures Decode(Text(Markup(code, 0))) == code && SpansOnly(Tags(Markup(code, 0)))
  {
    MarkupShowsCode(code, 0);
    EscapeRoundTrip(code, "");
    assert Escape(code) + "" == Escape(code) && code[0..] == code;
  }

  // ---- where the classes fall ----

  /** What is shown, each character with the tag of the span it stands in. */
  function Shown(markup: string, tag: string): seq<(char, string)>
    decreases |markup|
  {
    if markup == [] then []
    else if markup[0] == '<' then
      var next := markup[..|markup| - |AfterTag(markup)|];
      Shown(AfterTag(markup), if next == CLOSE then "" else next)
    else [(markup[0], tag)] + Shown(markup[1..], tag)
  }

  function Painted(text: string, tag: string): (r: seq<(char, string)>)
    ensures |r| == |text| && forall i :: 0 <= i < |text| ==> r[i] == (text[i], tag)
  {
    seq(|text|, i requires 0 <= i < |text| => (text[i], tag))
  }

  function TagOf(code: string, t: Token): string
    requires t.start < t.end <= |code|
  {
    match Style(code, t)
    case None => ""
    case Some(style) => OpenTag(style)
  }

  /** The code from `last` on, each token in its class and the rest in none. */
  function Coloured(code: string, last: nat): seq<(char, string)>
    requires last <= |code|
    decreases |code| - last
  {
    match Next(code, last)
    case None => Painted(Escape(code[last..]), "")
    case Some(t) =>
      Painted(Escape(code[last..t.start]), "") + (Painted(Escape(code[t.start..t.end]), TagOf(code, t)) + Coloured(code, t.end))
  }

  lemma {:induction false} PlainShown(text: string, rest: string, tag: string)
    requires '<' !in text
    ensures Shown(text + rest, tag) == Painted(text, tag) + Shown(rest, tag)
  {
    if text == [] {
      assert text + rest == rest;
    } else {
      assert text[0] in text;
      assert (text + rest)[1..] == text[1..] + rest;
      PlainShown(text[1..], rest, tag);
      assert Painted(text, tag) == [(text[0], tag)] + Painted(text[1..], tag);
    }
  }

  lemma TagShown(next: string, rest: string, tag: string)
    requires |next| >= 2 && next[0] == '<' && next[|next| - 1] == '>' && '>' !in next[..|next| - 1]
    ensures Shown(next + rest, tag) == Shown(rest, if next == CLOSE then "" else next)
  {
    OneTag(next[..|next| - 1], rest);
    assert next == next[..|next| - 1] + ">";
    assert next + rest == next[..|next| - 1] + ">" + rest;
    assert (next + rest)[..|next|] == next;
  }

  lemma SpanShown(style: string, text: string, rest: string)
    requires '>' !in style && '<' !in text
    ensures Shown(OpenTag(style) + (text + (CLOSE + rest)), "") == Painted(text, OpenTag(style)) + Shown(rest, "")
  {
    var tag := OpenTag(style);
    assert tag[..|tag| - 1] == "<span class=\"" + style + "\"";
    assert tag[1] == 's' && CLOSE[1] == '/';
    TagShown(tag, text + (CLOSE + rest), "");
    PlainShown(text, CLOSE + rest, tag);
    TagShown(CLOSE, rest, tag);
  }

  lemma PrintShown(code: string, t: Token, rest: string)
    requires t.start < t.end <= |code|
    ensures Shown(Print(code, t) + rest, "") == Painted(Escape(code[t.start..t.end]), TagOf(code, t)) + Shown(rest, "")
  {
    var text := Escape(code[t.start..t.end]);
    EscapeHidesBrackets(code[t.start..t.end]);
    match Style(code, t)
    case None => PlainShown(text, rest, "");
    case Some(style) =>
      Assoc(text, CLOSE, rest);
      Assoc(OpenTag(style), text + CLOSE, rest);
      Assoc(OpenTag(style), text, CLOSE);
      SpanShown(style, text, rest);
  }

  lemma PieceShown(code: string, last: nat, t: Token, rest: string, after: seq<(char, string)>)
    requires last <= t.start < t.end <= |code| && Shown(rest, "") == after
    ensures Shown(Escape(code[last..t.start]) + (Print(code, t) + rest), "") ==
            Painted(Escape(code[last..t.start]), "") + (Painted(Escape(code[t.start..t.end]), TagOf(code, t)) + after)
  {
    EscapeHidesBrackets(code[last..t.start]);
    PrintShown(code, t, rest);
    PlainShown(Escape(code[last..t.start]), Print(code, t) + rest, "");
  }

  lemma EndShown(text: string)
    ensures Shown(Escape(text), "") == Painted(Escape(text), "")
  {
    EscapeHidesBrackets(text);
    PlainShown(Escape(text), "", "");
    assert Escape(text) + "" == Escape(text) && Shown("", "") == [];
  }

  /** Every character of a token is shown in the token's class, and every other in none. */
  lemma {:induction false} MarkupColours(code: string, last: nat)
    requires last <= |code|
    ensures Shown(Markup(code, last), "") == Coloured(code, last)
    decreases |code| - last
  {
    match Next(code, last)
    case None => EndShown(code[last..]);
    case Some(t) =>
      MarkupColours(code, t.end);
      PieceShown(code, last, t, Markup(code, t.end), Coloured(code, t.end));
      assert Markup(code, last) == Escape(code[last..t.start]) + (Print(code, t) + Markup(code, t.end));
  }
}
