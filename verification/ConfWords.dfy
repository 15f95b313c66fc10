/**
 * The values of the configuration printer (src/conf/ast.ts) and the word rules of the nginx
 * configuration reader: quoting, backslashes, variables, comments.
 */
module ConfWords {
  import opened Wrappers

  // ------------------------------------------------------------------ characters

  /** What nginx separates words by. */
  predicate IsBlank(c: char) { c == ' ' || c == '\t' || c == '\r' || c == '\n' }

  predicate IsControl(c: char) { c < ' ' || c == '\U{7F}' }

  /** JavaScript's white space, of which nginx's is a part. */
  predicate IsSpace(c: char) {
    || IsBlank(c) || c == '\U{0B}' || c == '\U{0C}' || c == '\U{A0}' || c == '\U{1680}' || '\U{2000}' <= c <= '\U{200A}'
    || c == '\U{2028}' || c == '\U{2029}' || c == '\U{202F}' || c == '\U{205F}' || c == '\U{3000}' || c == '\U{FEFF}'
  }

  predicate IsLetter(c: char) { 'a' <= c <= 'z' || 'A' <= c <= 'Z' || c == '_' }

  predicate IsDigit(c: char) { '0' <= c <= '9' }

  /** Directive and variable names. */
  predicate IsIdent(s: string) {
    s != [] && IsLetter(s[0]) && forall c | c in s :: IsLetter(c) || IsDigit(c)
  }

  // ------------------------------------------------------------------ values

  datatype Value = Literal(text: string) | Number(digits: string) | Variable(name: string) | Regex(pattern: string)

  datatype Fault = ControlCharacter | NotAName | ForbiddenInRegex | TrailingBackslash | Unbalanced

  /** `lit` */
  function Lit(text: string): (r: Result<Value, Fault>)
    ensures r.Ok? ==> r.value == Literal(text)
    ensures r.Ok? <==> forall c | c in text :: !IsControl(c)
  {
    if exists c | c in text :: IsControl(c) then Err(ControlCharacter) else Ok(Literal(text))
  }

  predicate BreaksRegex(c: char) {
    IsControl(c) || IsSpace(c) || c == ';' || c == '{' || c == '}' || c == '"' || c == '\'' || c == '#'
  }

  /** The length of the run of backslashes at the end. */
  function Trailing(s: string): nat {
    if s != [] && s[|s| - 1] == '\\' then 1 + Trailing(s[..|s| - 1]) else 0
  }

  /** `regex` */
  function MakeRegex(pattern: string): (r: Result<Value, Fault>)
    ensures r.Ok? ==> r.value == Regex(pattern)
    ensures r.Ok? <==> (forall c | c in pattern :: !BreaksRegex(c)) && Trailing(pattern) % 2 == 0
  {
    if exists c | c in pattern :: BreaksRegex(c) then Err(ForbiddenInRegex)
    else if Trailing(pattern) % 2 == 1 then Err(TrailingBackslash)
    else Ok(Regex(pattern))
  }

  /** A value one of the constructors accepts; an empty pattern prints no word at all. */
  predicate IsValue(v: Value) {
    match v
    case Literal(text) => Lit(text).Ok?
    case Number(digits) => digits != [] && forall c | c in digits :: IsDigit(c) || c == '-' || c == '+' || c == '.' || c == 'e'
    case Variable(name) => IsIdent(name)
    case Regex(pattern) => pattern != [] && MakeRegex(pattern).Ok?
  }

  predicate NeedsQuote(c: char) {
    IsSpace(c) || c == ';' || c == '{' || c == '}' || c == '"' || c == '\'' || c == '#' || c == '\\'
  }

  /** A backslash in front of every backslash and quote. */
  function Escape(s: string): string {
    if s == [] then []
    else (if s[0] == '\\' || s[0] == '"' then ['\\', s[0]] else [s[0]]) + Escape(s[1..])
  }

  predicate PrintsPlain(text: string) { text != [] && forall c | c in text :: !NeedsQuote(c) }

  /** `renderValue` */
  function Render(v: Value): string {
    match v
    case Number(digits) => digits
    case Variable(name) => "$" + name
    case Regex(pattern) => pattern
    case Literal(text) => if PrintsPlain(text) then text else "\"" + Escape(text) + "\""
  }

  // ------------------------------------------------------------------ the reader's words

  /** What nginx makes of the raw text of a word: backslash pairs are resolved, other backslashes stay. */
  function Unescape(raw: string): string {
    if raw == [] then []
    else if raw[0] == '\\' && |raw| > 1 then
      var c := raw[1];
      if c == '"' || c == '\'' || c == '\\' then [c] + Unescape(raw[2..])
      else if c == 't' then ['\t'] + Unescape(raw[2..])
      else if c == 'r' then ['\r'] + Unescape(raw[2..])
      else if c == 'n' then ['\n'] + Unescape(raw[2..])
      else ['\\'] + Unescape(raw[1..])
    else [raw[0]] + Unescape(raw[1..])
  }

  /** Where an unquoted word ends; a backslash takes the next character along, `${` does not open a block. */
  function PlainLen(s: string, variable: bool): Option<nat> {
    if s == [] then None
    else if s[0] == '{' && variable then Longer(PlainLen(s[1..], true), 1)
    else if s[0] == '\\' then if |s| == 1 then None else Longer(PlainLen(s[2..], false), 2)
    else if s[0] == '$' then Longer(PlainLen(s[1..], true), 1)
    else if IsBlank(s[0]) || s[0] == ';' || s[0] == '{' then Some(0)
    else Longer(PlainLen(s[1..], false), 1)
  }

  function Longer(n: Option<nat>, more: nat): Option<nat> { if n.Some? then Some(n.value + more) else None }

  /** Where a quoted word ends. */
  function QuotedLen(s: string, quote: char): Option<nat> {
    if s == [] then None
    else if s[0] == '\\' then if |s| == 1 then None else Longer(QuotedLen(s[2..], quote), 2)
    else if s[0] == quote then Some(0)
    else Longer(QuotedLen(s[1..], quote), 1)
  }

  datatype Stop = Semicolon | OpenBrace | CloseBrace

  datatype Token = Token(words: seq<string>, stop: Stop, rest: string) | EndOfText | BadText

  function AfterLine(s: string): (r: string)
    ensures |r| <= |s|
  {
    if s == [] then [] else if s[0] == '\n' then s else AfterLine(s[1..])
  }

  lemma {:induction false} PlainLenFits(s: string, variable: bool)
    ensures PlainLen(s, variable).Some? ==> PlainLen(s, variable).value < |s|
    decreases |s|
  {
    if s != [] {
      PlainLenFits(s[1..], true);
      PlainLenFits(s[1..], false);
      if |s| > 1 { PlainLenFits(s[2..], false); }
    }
  }

  lemma {:induction false} QuotedLenFits(s: string, quote: char)
    ensures QuotedLen(s, quote).Some? ==> QuotedLen(s, quote).value < |s|
    decreases |s|
  {
    if s != [] {
      QuotedLenFits(s[1..], quote);
      if |s| > 1 { QuotedLenFits(s[2..], quote); }
    }
  }

  /** One statement's words up to its `;` or `{`, or the `}` that ends a block (`ngx_conf_read_token`). */
  function Scan(s: string, words: seq<string>): (t: Token)
    ensures t.Token? ==> |t.rest| < |s|
    decreases |s|
  {
    if s == [] then if words == [] then EndOfText else BadText
    else if IsBlank(s[0]) then Scan(s[1..], words)
    else if s[0] == ';' then if words == [] then BadText else Token(words, Semicolon, s[1..])
    else if s[0] == '{' then if words == [] then BadText else Token(words, OpenBrace, s[1..])
    else if s[0] == '}' then if words != [] then BadText else Token(words, CloseBrace, s[1..])
    else if s[0] == '#' then AfterComment(s, words)
    else if s[0] == '"' || s[0] == '\'' then
      QuotedLenFits(s[1..], s[0]);
      match QuotedLen(s[1..], s[0])
      case None => BadText
      case Some(n) => AfterQuoted(s[n + 2..], words + [Unescape(s[1..n + 1])], |s|)
    else
      PlainLenFits(s, false);
      match PlainLen(s, false)
      case None => BadText
      case Some(n) =>
        // not at a blank, a brace or a semicolon here, so the word is not empty
        if n == 0 then BadText else Scan(s[n..], words + [Unescape(s[..n])])
  }

  function AfterComment(s: string, words: seq<string>): (t: Token)
    requires s != []
    ensures t.Token? ==> |t.rest| < |s|
    decreases |s|, 0
  {
    Scan(AfterLine(s[1..]), words)
  }

  /** A quoted word must be followed by a blank, a semicolon or a brace. */
  function AfterQuoted(s: string, words: seq<string>, ghost bound: nat): (t: Token)
    requires |s| < bound
    ensures t.Token? ==> |t.rest| < bound
    decreases bound, 0
  {
    if s == [] then BadText
    else if IsBlank(s[0]) || s[0] == ';' || s[0] == '{' || s[0] == ')' then Scan(s, words)
    else BadText
  }

  // ------------------------------------------------------------------ printed values are read as one word

  /** The word a printed value stands for. */
  function WordOf(v: Value): string {
    match v
    case Literal(text) => text
    case Number(digits) => digits
    case Variable(name) => "$" + name
    case Regex(pattern) => Unescape(pattern)
  }

  /** Does the scan of `s` end on a backslash that would take the next character along? */
  predicate Hangs(s: string) {
    if s == [] then false
    else if s[0] == '\\' then if |s| == 1 then true else Hangs(s[2..])
    else Hangs(s[1..])
  }

  lemma {:induction false} HangsAtEnd(s: string, c: char)
    ensures Hangs(s + [c]) <==> (!Hangs(s) && c == '\\')
    decreases |s|
  {
    if s == [] {
      assert s + [c] == [c];
    } else if s[0] == '\\' {
      if |s| == 1 {
        assert (s + [c])[2..] == [];
      } else {
        assert (s + [c])[2..] == s[2..] + [c];
        HangsAtEnd(s[2..], c);
      }
    } else {
      assert (s + [c])[1..] == s[1..] + [c];
      HangsAtEnd(s[1..], c);
    }
  }

  /** Counting the backslashes at the end tells exactly whether the next character is swallowed. */
  lemma {:induction false} TrailingTellsHangs(s: string)
    ensures Hangs(s) <==> Trailing(s) % 2 == 1
    decreases |s|
  {
    if s != [] {
      var n := |s| - 1;
      assert s == s[..n] + [s[n]];
      TrailingTellsHangs(s[..n]);
      HangsAtEnd(s[..n], s[n]);
    }
  }

  predicate Ends(c: char) { c == ' ' || c == ';' }

  /** Characters an unquoted word may hold. */
  predicate IsPlainChar(c: char) { !IsBlank(c) && c != ';' && c != '{' }

  /** An unquoted word without a hanging backslash ends exactly where it was meant to. */
  lemma {:induction false} PlainWordEnds(w: string, t: char, rest: string, variable: bool)
    requires (forall c | c in w :: IsPlainChar(c)) && !Hangs(w) && Ends(t)
    ensures PlainLen(w + [t] + rest, variable) == Some(|w|)
    decreases |w|
  {
    var s := w + [t] + rest;
    if w == [] {
      assert s[0] == t;
    } else {
      assert s[0] == w[0] && w[0] in w;
      if w[0] == '\\' {
        assert s[2..] == w[2..] + [t] + rest;
        PlainWordEnds(w[2..], t, rest, false);
      } else {
        assert s[1..] == w[1..] + [t] + rest;
        PlainWordEnds(w[1..], t, rest, w[0] == '$');
      }
    }
  }

  /** With a hanging backslash it never ends there: the refusal of an odd run of backslashes is exact. */
  lemma {:induction false} HangingWordSwallows(w: string, t: char, rest: string, variable: bool)
    requires (forall c | c in w :: IsPlainChar(c)) && Hangs(w)
    ensures PlainLen(w + [t] + rest, variable) != Some(|w|)
    decreases |w|
  {
    var s := w + [t] + rest;
    assert s[0] == w[0] && w[0] in w;
    if w[0] == '\\' {
      if |w| == 1 {
        assert s[2..] == rest;
      } else {
        assert s[2..] == w[2..] + [t] + rest;
        HangingWordSwallows(w[2..], t, rest, false);
      }
    } else {
      assert s[1..] == w[1..] + [t] + rest;
      HangingWordSwallows(w[1..], t, rest, w[0] == '$');
    }
  }

  lemma {:induction false} EscapeEnds(text: string, rest: string)
    ensures QuotedLen(Escape(text) + ['"'] + rest, '"') == Some(|Escape(text)|)
    decreases |text|
  {
    var s := Escape(text) + ['"'] + rest;
    if text == [] {
      assert s[0] == '"';
    } else {
      EscapeEnds(text[1..], rest);
      var tail := Escape(text[1..]) + ['"'] + rest;
      if text[0] == '\\' || text[0] == '"' {
        assert s == ['\\', text[0]] + tail;
        assert s[2..] == tail;
      } else {
        assert s == [text[0]] + tail;
        assert s[1..] == tail;
      }
    }
  }

  /** Quoting is undone exactly, whatever the text holds. */
  lemma {:induction false} UnescapeUndoesEscape(text: string)
    ensures Unescape(Escape(text)) == text
    decreases |text|
  {
    if text != [] {
      UnescapeUndoesEscape(text[1..]);
      var e := Escape(text);
      if text[0] == '\\' || text[0] == '"' {
        assert e[2..] == Escape(text[1..]);
      } else {
        assert e[1..] == Escape(text[1..]);
      }
      assert text == [text[0]] + text[1..];
    }
  }

  lemma {:induction false} NoBackslashStays(w: string)
    requires '\\' !in w
    ensures Unescape(w) == w && !Hangs(w)
    decreases |w|
  {
    if w != [] {
      NoBackslashStays(w[1..]);
      assert w == [w[0]] + w[1..];
    }
  }

  /** A pair the reader resolves: a backslash with a quote, a backslash, or one of t, r, n. */
  predicate IsPair(a: char, b: char) {
    a == '\\' && (b == '"' || b == '\'' || b == '\\' || b == 't' || b == 'r' || b == 'n')
  }

  lemma {:induction false} UnescapeShrinks(raw: string)
    ensures |Unescape(raw)| <= |raw|
    decreases |raw|
  {
    if raw != [] {
      UnescapeShrinks(raw[1..]);
      if |raw| > 1 { UnescapeShrinks(raw[2..]); }
    }
  }

  /** A regex is read back as it was printed exactly when it holds no such pair. */
  lemma {:induction false} RegexIsKeptExactly(p: string)
    ensures Unescape(p) == p <==> forall i :: 0 <= i < |p| - 1 ==> !IsPair(p[i], p[i + 1])
    decreases |p|
  {
    if |p| > 1 {
      RegexIsKeptExactly(p[1..]);
      if IsPair(p[0], p[1]) {
        UnescapeShrinks(p[2..]);
        assert |Unescape(p)| < |p|;
      } else {
        assert p == [p[0]] + p[1..];
        assert Unescape(p) == [p[0]] + Unescape(p[1..]);
        assert (forall i :: 0 <= i < |p[1..]| - 1 ==> !IsPair(p[1..][i], p[1..][i + 1]))
          <==> (forall i :: 0 <= i < |p| - 1 ==> !IsPair(p[i], p[i + 1])) by { PairsShift(p); }
      }
    }
  }

  lemma PairsShift(p: string)
    requires |p| > 1 && !IsPair(p[0], p[1])
    ensures (forall i :: 0 <= i < |p[1..]| - 1 ==> !IsPair(p[1..][i], p[1..][i + 1]))
      <==> (forall i :: 0 <= i < |p| - 1 ==> !IsPair(p[i], p[i + 1]))
  {
    var q := p[1..];
    if forall i :: 0 <= i < |q| - 1 ==> !IsPair(q[i], q[i + 1]) {
      forall i | 0 <= i < |p| - 1 ensures !IsPair(p[i], p[i + 1]) {
        if i > 0 { assert q[i - 1] == p[i] && q[i] == p[i + 1]; }
      }
    }
    if forall i :: 0 <= i < |p| - 1 ==> !IsPair(p[i], p[i + 1]) {
      forall i | 0 <= i < |q| - 1 ensures !IsPair(q[i], q[i + 1]) { assert q[i] == p[i + 1] && q[i + 1] == p[i + 2]; }
    }
  }

  /** Printed unquoted: every accepted value but a literal that needs quotes. */
  lemma PlainValue(v: Value)
    requires IsValue(v) && (v.Literal? ==> PrintsPlain(v.text))
    ensures var w := Render(v);
      && w != [] && (forall c | c in w :: IsPlainChar(c)) && !Hangs(w) && Unescape(w) == WordOf(v)
      && w[0] != '}' && w[0] != '#' && w[0] != '"' && w[0] != '\''
  {
    var w := Render(v);
    assert w[0] in w;
    match v
    case Literal(text) => NoBackslashStays(text);
    case Number(digits) => NoBackslashStays(digits);
    case Variable(name) => NoBackslashStays("$" + name);
    case Regex(pattern) => TrailingTellsHangs(pattern);
  }

  /** A printed value, followed by a blank or a semicolon, is read as exactly one word: its own. */
  lemma ValueIsOneWord(v: Value, t: char, rest: string, words: seq<string>)
    requires IsValue(v) && Ends(t)
    ensures Scan(Render(v) + [t] + rest, words) == Scan([t] + rest, words + [WordOf(v)])
  {
    hide Hangs, Escape, Unescape, PlainLen, QuotedLen;
    var w := Render(v);
    var s := w + [t] + rest;
    if v.Literal? && !PrintsPlain(v.text) {
      QuotedValue(v.text, t, rest, words);
    } else {
      PlainValue(v);
      PlainWordEnds(w, t, rest, false);
      assert s[0] == w[0] && w[0] in w;
      assert s[..|w|] == w && s[|w|..] == [t] + rest;
    }
  }

  lemma QuotedValue(text: string, t: char, rest: string, words: seq<string>)
    requires Ends(t)
    ensures Scan("\"" + Escape(text) + "\"" + [t] + rest, words) == Scan([t] + rest, words + [text])
  {
    hide Escape, Unescape, QuotedLen;
    var e := Escape(text);
    var s := "\"" + e + "\"" + [t] + rest;
    EscapeEnds(text, [t] + rest);
    UnescapeUndoesEscape(text);
    assert s[1..] == e + ['"'] + ([t] + rest);
    assert s[1..|e| + 1] == e;
    assert s[|e| + 2..] == [t] + rest;
  }

  /** An empty pattern is the one accepted regex that prints no word. */
  lemma EmptyRegexIsLost(rest: string, words: seq<string>)
    ensures MakeRegex("").Ok? && Scan(Render(Regex("")) + ";" + rest, words) == Scan(";" + rest, words)
  {
    assert Render(Regex("")) + ";" + rest == ";" + rest;
  }
}
