/**
 * The configuration printer (`serialize`, `lua` in src/conf/ast.ts) against a reader that follows
 * nginx: statements, nested blocks, and Lua blocks found by counting braces.
 */
module ConfPrinter {
  import opened Wrappers
  import opened ConfWords

  datatype Node =
    | Directive(name: string, args: seq<Value>)
    | Block(name: string, args: seq<Value>, children: seq<Node>)
    | Entry(key: Value, value: Value)
    | Lua(name: string, body: string)

  // ------------------------------------------------------------------ braces

  /** The depth after `s`, from `depth`; None once it would go below zero. */
  function DepthAfter(s: string, depth: nat): Option<nat> {
    if s == [] then Some(depth)
    else if s[0] == '{' then DepthAfter(s[1..], depth + 1)
    else if s[0] == '}' then if depth == 0 then None else DepthAfter(s[1..], depth - 1)
    else DepthAfter(s[1..], depth)
  }

  predicate Balanced(s: string) { DepthAfter(s, 0) == Some(0) }

  /** The counting loop of `lua`, which stops as soon as the depth is negative. */
  method CountBraces(body: string) returns (balanced: bool)
    ensures balanced <==> Balanced(body)
  {
    var depth, i := 0, 0;
    while i < |body| && depth >= 0
      invariant 0 <= i <= |body|
      invariant depth >= 0 ==> DepthAfter(body, 0) == DepthAfter(body[i..], depth)
      invariant depth < 0 ==> DepthAfter(body, 0) == None
    {
      if body[i] == '{' { depth := depth + 1; }
      else if body[i] == '}' { depth := depth - 1; }
      i := i + 1;
    }
    balanced := depth == 0;
  }

  // ------------------------------------------------------------------ what is accepted

  /** Names whose block nginx hands to the Lua module. */
  predicate IsLuaName(name: string) {
    |name| >= 13 && name[|name| - 13..] == "_by_lua_block"
  }

  /** Built by the constructors; Lua blocks carry a Lua name, other blocks do not. */
  predicate IsNode(n: Node)
    decreases n
  {
    match n
    case Directive(name, args) => IsIdent(name) && forall v | v in args :: IsValue(v)
    case Block(name, args, children) =>
      IsIdent(name) && !IsLuaName(name) && (forall v | v in args :: IsValue(v)) && forall c | c in children :: IsNode(c)
    case Entry(key, value) => IsValue(key) && IsValue(value)
    case Lua(name, body) => IsIdent(name) && IsLuaName(name) && Balanced(body)
  }

  // ------------------------------------------------------------------ printing Lua

  function Spaces(n: nat): string { seq(n, i => ' ') }

  function Pad(depth: nat): string { Spaces(4 * depth) }

  /** Leading line feeds off. */
  function DropFeeds(s: string): string {
    if s != [] && s[0] == '\n' then DropFeeds(s[1..]) else s
  }

  /** Trailing white space off. */
  function DropTail(s: string): string {
    if s != [] && IsSpace(s[|s| - 1]) then DropTail(s[..|s| - 1]) else s
  }

  function FirstLine(s: string): (r: string)
    ensures |r| <= |s| && r == s[..|r|]
    ensures |r| < |s| ==> s[|r|] == '\n'
  {
    if s == [] || s[0] == '\n' then [] else [s[0]] + FirstLine(s[1..])
  }

  /** `split('\n')` */
  function Lines(s: string): seq<string>
    decreases |s|
  {
    var l := FirstLine(s);
    if |l| == |s| then [l] else [l] + Lines(s[|l| + 1..])
  }

  function Indent(line: string): nat {
    if line != [] && IsSpace(line[0]) then 1 + Indent(line[1..]) else 0
  }

  predicate IsBlankLine(line: string) { forall c | c in line :: IsSpace(c) }

  /** The smallest indentation of a line that is not blank; None stands for the source's infinity. */
  function LeastIndent(lines: seq<string>): Option<nat> {
    if lines == [] then None
    else
      var least := LeastIndent(lines[1..]);
      if IsBlankLine(lines[0]) then least
      else if least.None? || Indent(lines[0]) < least.value then Some(Indent(lines[0])) else least
  }

  function Stripped(line: string, strip: Option<nat>): string {
    if strip.Some? && strip.value <= |line| then line[strip.value..] else []
  }

  function PrintLines(lines: seq<string>, strip: Option<nat>, pad: string): string {
    if lines == [] then []
    else (if IsBlankLine(lines[0]) then "\n" else pad + Stripped(lines[0], strip) + "\n") + PrintLines(lines[1..], strip, pad)
  }

  function BodyLines(body: string): seq<string> { Lines(DropTail(DropFeeds(body))) }

  /** The printed body of a Lua block. */
  function LuaText(body: string, depth: nat): string {
    PrintLines(BodyLines(body), LeastIndent(BodyLines(body)), Pad(depth + 1))
  }

  // ------------------------------------------------------------------ printing

  function Args(args: seq<Value>): string {
    if args == [] then [] else " " + Render(args[0]) + Args(args[1..])
  }

  function PrintNode(n: Node, depth: nat): string
    decreases n
  {
    match n
    case Entry(key, value) => Pad(depth) + Render(key) + " " + Render(value) + ";\n"
    case Directive(name, args) => Pad(depth) + name + Args(args) + ";\n"
    case Lua(name, body) => Pad(depth) + name + " {\n" + LuaText(body, depth) + Pad(depth) + "}\n"
    case Block(name, args, children) => Pad(depth) + name + Args(args) + " {\n" + Serialize(children, depth + 1) + Pad(depth) + "}\n"
  }

  /** `serialize` */
  function Serialize(nodes: seq<Node>, depth: nat): string
    decreases nodes
  {
    if nodes == [] then [] else PrintNode(nodes[0], depth) + Serialize(nodes[1..], depth)
  }

  // ------------------------------------------------------------------ reading

  datatype Item = Simple(words: seq<string>) | Nested(words: seq<string>, children: seq<Item>) | LuaCode(words: seq<string>, text: string)

  /** The items up to a closing brace or the end, and what is left behind the brace. */
  datatype Parsed = Parsed(items: seq<Item>, closed: bool, rest: string) | BadConf

  /** Where a Lua block ends: the brace that takes the depth from 1 to 0. */
  function BraceEnd(s: string, depth: nat): Option<nat>
    requires depth >= 1
  {
    if s == [] then None
    else if s[0] == '}' && depth == 1 then Some(0)
    else
      var d := if s[0] == '{' then depth + 1 else if s[0] == '}' then depth - 1 else depth;
      Longer(BraceEnd(s[1..], d), 1)
  }

  lemma {:induction false} BraceEndFits(s: string, depth: nat)
    requires depth >= 1
    ensures BraceEnd(s, depth).Some? ==> BraceEnd(s, depth).value < |s|
    decreases |s|
  {
    if s != [] && !(s[0] == '}' && depth == 1) {
      BraceEndFits(s[1..], if s[0] == '{' then depth + 1 else if s[0] == '}' then depth - 1 else depth);
    }
  }

  /** `ngx_conf_parse`, with the Lua module's block reader for Lua names. */
  function Parse(s: string): (r: Parsed)
    ensures r.Parsed? ==> |r.rest| <= |s|
    ensures r.Parsed? && r.closed ==> |r.rest| < |s|
    decreases |s|
  {
    match Scan(s, [])
    case EndOfText => Parsed([], false, [])
    case BadText => BadConf
    case Token(words, stop, rest) =>
      if stop == CloseBrace then Parsed([], true, rest)
      else if stop == Semicolon then Before(Simple(words), Parse(rest))
      else if words != [] && IsLuaName(words[0]) then
        BraceEndFits(rest, 1);
        match BraceEnd(rest, 1)
        case None => BadConf
        case Some(n) => Before(LuaCode(words, rest[..n]), Parse(rest[n + 1..]))
      else
        var inner := Parse(rest);
        if inner.BadConf? || !inner.closed then BadConf
        else Before(Nested(words, inner.items), Parse(inner.rest))
  }

  function Before(item: Item, r: Parsed): Parsed {
    if r.BadConf? then r else r.(items := [item] + r.items)
  }

  // ------------------------------------------------------------------ the tree of words

  function WordsOf(args: seq<Value>): (r: seq<string>)
    ensures |r| == |args|
  {
    seq(|args|, i requires 0 <= i < |args| => WordOf(args[i]))
  }

  function ItemOf(n: Node, depth: nat): Item
    decreases n
  {
    match n
    case Entry(key, value) => Simple([WordOf(key), WordOf(value)])
    case Directive(name, args) => Simple([name] + WordsOf(args))
    // the reader keeps the raw text between the braces
    case Lua(name, body) => LuaCode([name], "\n" + LuaText(body, depth) + Pad(depth))
    case Block(name, args, children) => Nested([name] + WordsOf(args), ItemsOf(children, depth + 1))
  }

  function ItemsOf(nodes: seq<Node>, depth: nat): seq<Item>
    decreases nodes
  {
    if nodes == [] then [] else [ItemOf(nodes[0], depth)] + ItemsOf(nodes[1..], depth)
  }

  // ------------------------------------------------------------------ Lua blocks end where they should

  lemma {:induction false} DepthAdds(a: string, b: string, d: nat)
    ensures DepthAfter(a + b, d) == if DepthAfter(a, d).None? then None else DepthAfter(b, DepthAfter(a, d).value)
    decreases |a|
  {
    if a == [] {
      assert a + b == b;
    } else {
      assert (a + b)[1..] == a[1..] + b;
      if a[0] == '{' { DepthAdds(a[1..], b, d + 1); }
      else if a[0] == '}' { if d > 0 { DepthAdds(a[1..], b, d - 1); } }
      else { DepthAdds(a[1..], b, d); }
    }
  }

  /** Text without braces changes no depth. */
  predicate Neutral(s: string) { '{' !in s && '}' !in s }

  lemma {:induction false} NeutralDepth(s: string, d: nat)
    requires Neutral(s)
    ensures DepthAfter(s, d) == Some(d)
    decreases |s|
  {
    if s != [] { NeutralDepth(s[1..], d); }
  }

  lemma {:induction false} DropFeedsDepth(s: string, d: nat)
    ensures DepthAfter(DropFeeds(s), d) == DepthAfter(s, d)
    decreases |s|
  {
    if s != [] && s[0] == '\n' { DropFeedsDepth(s[1..], d); }
  }

  lemma {:induction false} DropTailDepth(s: string, d: nat)
    ensures DepthAfter(DropTail(s), d) == DepthAfter(s, d)
    decreases |s|
  {
    if s != [] && IsSpace(s[|s| - 1]) {
      var n := |s| - 1;
      assert s == s[..n] + [s[n]];
      DepthAdds(s[..n], [s[n]], d);
      if DepthAfter(s[..n], d).Some? { NeutralDepth([s[n]], DepthAfter(s[..n], d).value); }
      DropTailDepth(s[..n], d);
    }
  }

  lemma {:induction false} IndentIsSpace(line: string)
    ensures Indent(line) <= |line| && forall i :: 0 <= i < Indent(line) ==> IsSpace(line[i])
    ensures Indent(line) == |line| <==> IsBlankLine(line)
    decreases |line|
  {
    if line != [] && IsSpace(line[0]) {
      IndentIsSpace(line[1..]);
      assert line == [line[0]] + line[1..];
    } else if line != [] {
      assert line[0] in line;
    }
  }

  /** The common indentation is within every line that is not blank. */
  predicate StripFits(lines: seq<string>, strip: Option<nat>) {
    forall l | l in lines && !IsBlankLine(l) :: strip.Some? && strip.value <= Indent(l)
  }

  lemma {:induction false} LeastIndentFits(lines: seq<string>)
    ensures StripFits(lines, LeastIndent(lines))
    decreases |lines|
  {
    if lines != [] {
      LeastIndentFits(lines[1..]);
      assert forall l | l in lines :: l == lines[0] || l in lines[1..];
    }
  }

  lemma SpacesNeutral(n: nat)
    ensures Neutral(Spaces(n)) && |Spaces(n)| == n && forall c | c in Spaces(n) :: c == ' '
  {
  }

  lemma OneLineDepth(line: string, strip: Option<nat>, pad: string, d: nat)
    requires Neutral(pad) && StripFits([line], strip)
    ensures DepthAfter(if IsBlankLine(line) then "\n" else pad + Stripped(line, strip) + "\n", d) == DepthAfter(line, d)
  {
    if IsBlankLine(line) {
      NeutralDepth(line, d);
      NeutralDepth("\n", d);
    } else {
      assert line in [line];
      IndentIsSpace(line);
      var k := strip.value;
      assert line == line[..k] + line[k..];
      assert Neutral(line[..k]);
      DepthAdds(line[..k], line[k..], d);
      NeutralDepth(line[..k], d);
      DepthAdds(pad + line[k..], "\n", d);
      DepthAdds(pad, line[k..], d);
      NeutralDepth(pad, d);
      if DepthAfter(line, d).Some? { NeutralDepth("\n", DepthAfter(line, d).value); }
    }
  }

  lemma {:induction false} LinesDepth(s: string, strip: Option<nat>, pad: string, d: nat)
    requires Neutral(pad) && StripFits(Lines(s), strip)
    ensures DepthAfter(PrintLines(Lines(s), strip, pad), d) == DepthAfter(s, d)
    decreases |s|
  {
    hide Stripped, IsBlankLine;
    var l := FirstLine(s);
    var lines := Lines(s);
    var first := if IsBlankLine(l) then "\n" else pad + Stripped(l, strip) + "\n";
    assert l in lines;
    OneLineDepth(l, strip, pad, d);
    if |l| == |s| {
      assert s == l && lines == [l];
      assert PrintLines(lines, strip, pad) == first + [];
      assert first + [] == first;
    } else {
      var rest := s[|l| + 1..];
      assert s == l + ("\n" + rest);
      DepthAdds(l, "\n" + rest, d);
      assert lines[1..] == Lines(rest);
      assert forall x | x in Lines(rest) :: x in lines;
      DepthAdds(first, PrintLines(Lines(rest), strip, pad), d);
      if DepthAfter(l, d).Some? {
        LinesDepth(rest, strip, pad, DepthAfter(l, d).value);
        assert ("\n" + rest)[1..] == rest;
      }
    }
  }

  /** Re-indenting a Lua body keeps its braces balanced. */
  lemma LuaTextIsBalanced(body: string, depth: nat)
    requires Balanced(body)
    ensures Balanced(LuaText(body, depth))
  {
    var s := DropTail(DropFeeds(body));
    SpacesNeutral(4 * (depth + 1));
    LeastIndentFits(Lines(s));
    LinesDepth(s, LeastIndent(Lines(s)), Pad(depth + 1), 0);
    DropTailDepth(DropFeeds(body), 0);
    DropFeedsDepth(body, 0);
  }

  lemma {:induction false} BraceEndAfter(s: string, x: string, depth: nat)
    requires DepthAfter(s, depth).Some?
    ensures BraceEnd(s + x, depth + 1) == Longer(BraceEnd(x, DepthAfter(s, depth).value + 1), |s|)
    decreases |s|
  {
    if s == [] {
      assert s + x == x;
    } else {
      assert (s + x)[1..] == s[1..] + x;
      BraceEndAfter(s[1..], x, if s[0] == '{' then depth + 1 else if s[0] == '}' then depth - 1 else depth);
    }
  }

  /** The brace counter stops at the brace behind the printed body, not before and not after. */
  lemma LuaEndsExactly(body: string, depth: nat, rest: string)
    requires Balanced(body)
    ensures var text := "\n" + LuaText(body, depth) + Pad(depth);
      BraceEnd(text + "}" + rest, 1) == Some(|text|)
  {
    hide LuaText;
    var text := "\n" + LuaText(body, depth) + Pad(depth);
    LuaTextIsBalanced(body, depth);
    SpacesNeutral(4 * depth);
    NeutralDepth(Pad(depth), 0);
    DepthAdds("\n" + LuaText(body, depth), Pad(depth), 0);
    DepthAdds("\n", LuaText(body, depth), 0);
    NeutralDepth("\n", 0);
    assert text + "}" + rest == text + ("}" + rest);
    BraceEndAfter(text, "}" + rest, 0);
  }

  // ------------------------------------------------------------------ statements

  lemma {:induction false} SpacesAreSkipped(n: nat, s: string, words: seq<string>)
    ensures Scan(Spaces(n) + s, words) == Scan(s, words)
    decreases n
  {
    if n == 0 {
      assert Spaces(n) + s == s;
    } else {
      assert (Spaces(n) + s)[1..] == Spaces(n - 1) + s;
      SpacesAreSkipped(n - 1, s, words);
    }
  }

  lemma NameIsValue(name: string)
    requires IsIdent(name)
    ensures IsValue(Literal(name)) && Render(Literal(name)) == name && WordOf(Literal(name)) == name
  {
  }

  lemma Regroup(p: string, r: string, a: string, tail: string, x: string)
    requires x == a + tail && x != []
    ensures p + r + a + tail == p + (r + [x[0]] + x[1..])
  {
    assert x == [x[0]] + x[1..];
    assert r + [x[0]] + x[1..] == r + x;
  }

  lemma FirstOfArgs(args: seq<Value>, tail: string)
    requires tail != [] && Ends(tail[0])
    ensures var x := Args(args) + tail; x != [] && Ends(x[0])
  {
    hide Render;
  }

  lemma NextArg(args: seq<Value>, tail: string, words: seq<string>)
    requires args != [] && IsValue(args[0]) && tail != [] && Ends(tail[0])
    ensures Scan(Args(args) + tail, words) == Scan(Args(args[1..]) + tail, words + [WordOf(args[0])])
  {
    hide Scan, Render, WordOf, IsValue, Spaces;
    var a := Args(args[1..]);
    var x := a + tail;
    FirstOfArgs(args[1..], tail);
    OneSpace();
    hide Args;
    Regroup(" ", Render(args[0]), a, tail, x);
    SpacesAreSkipped(1, Render(args[0]) + [x[0]] + x[1..], words);
    ValueIsOneWord(args[0], x[0], x[1..], words);
    assert x == [x[0]] + x[1..];
  }

  lemma OneSpace()
    ensures Spaces(1) == " "
  {
  }

  /** The arguments are read as exactly their words. */
  lemma {:induction false} ArgsAreWords(args: seq<Value>, tail: string, words: seq<string>)
    requires (forall v | v in args :: IsValue(v)) && tail != [] && Ends(tail[0])
    ensures Scan(Args(args) + tail, words) == Scan(tail, words + WordsOf(args))
    decreases |args|
  {
    if args == [] {
      assert Args(args) + tail == tail;
      assert words + WordsOf(args) == words;
    } else {
      hide Scan, Render, WordOf, IsValue, Args;
      assert args[0] in args;
      NextArg(args, tail, words);
      assert forall v | v in args[1..] :: v in args;
      ArgsAreWords(args[1..], tail, words + [WordOf(args[0])]);
      assert words + [WordOf(args[0])] + WordsOf(args[1..]) == words + WordsOf(args);
    }
  }

  lemma HeadIsWords(name: string, args: seq<Value>, depth: nat, tail: string)
    requires IsIdent(name) && (forall v | v in args :: IsValue(v)) && tail != [] && Ends(tail[0])
    ensures Scan(Pad(depth) + name + Args(args) + tail, []) == Scan(tail, [name] + WordsOf(args))
  {
    hide Scan, Render, WordOf, IsValue, IsIdent, Spaces;
    var x := Args(args) + tail;
    assert Ends(x[0]) && x == [x[0]] + x[1..];
    assert Pad(depth) + name + Args(args) + tail == Spaces(4 * depth) + (name + [x[0]] + x[1..]);
    SpacesAreSkipped(4 * depth, name + [x[0]] + x[1..], []);
    NameIsValue(name);
    ValueIsOneWord(Literal(name), x[0], x[1..], []);
    assert [] + [name] == [name];
    ArgsAreWords(args, tail, [name]);
  }

  // ------------------------------------------------------------------ reading back what was printed

  /** Items in front of what the rest of the text gives. */
  function Ahead(items: seq<Item>, r: Parsed): Parsed {
    if r.BadConf? then r else r.(items := items + r.items)
  }

  lemma FeedIsSkipped(s: string)
    ensures Parse("\n" + s) == Parse(s)
  {
    assert ("\n" + s)[1..] == s;
    assert Scan("\n" + s, []) == Scan(s, []);
  }

  lemma SimpleReadsBack(words: seq<string>, s: string, x: string)
    requires words != [] && Scan(s, []) == Scan(";\n" + x, words)
    ensures Parse(s) == Before(Simple(words), Parse(x))
  {
    assert (";\n" + x)[1..] == "\n" + x;
    FeedIsSkipped(x);
  }

  lemma OpensBlock(words: seq<string>, rest: string)
    requires words != []
    ensures Scan(" {" + rest, words) == Token(words, OpenBrace, rest)
  {
    assert (" {" + rest)[1..] == "{" + rest;
    assert ("{" + rest)[1..] == rest;
  }

  /** One printed node in front of any text is read as its item, and the text is left as it was. */
  lemma {:induction false} NodeReadsBack(n: Node, depth: nat, x: string)
    requires IsNode(n)
    ensures Parse(PrintNode(n, depth) + x) == Before(ItemOf(n, depth), Parse(x))
    decreases n, 0
  {
    hide Scan, Render, WordOf, IsValue, IsIdent, LuaText, Spaces, Parse;
    match n
    case Entry(key, value) => EntryReadsBack(key, value, depth, x);
    case Directive(name, args) =>
      HeadIsWords(name, args, depth, ";\n" + x);
      assert PrintNode(n, depth) + x == Pad(depth) + name + Args(args) + (";\n" + x);
      SimpleReadsBack([name] + WordsOf(args), PrintNode(n, depth) + x, x);
    case Lua(name, body) => LuaReadsBack(name, body, depth, x);
    case Block(name, args, children) =>
      var inner := "\n" + Serialize(children, depth + 1) + Pad(depth) + "}\n" + x;
      HeadIsWords(name, args, depth, " {" + inner);
      assert PrintNode(n, depth) + x == Pad(depth) + name + Args(args) + (" {" + inner);
      OpensBlock([name] + WordsOf(args), inner);
      assert inner == "\n" + (Serialize(children, depth + 1) + (Pad(depth) + "}\n" + x));
      FeedIsSkipped(Serialize(children, depth + 1) + (Pad(depth) + "}\n" + x));
      NodesReadBack(children, depth + 1, Pad(depth) + "}\n" + x);
      CloseIsRead(depth, x);
      assert ItemsOf(children, depth + 1) + [] == ItemsOf(children, depth + 1);
      BlockParses([name] + WordsOf(args), PrintNode(n, depth) + x, inner, ItemsOf(children, depth + 1), x);
  }

  lemma BlockParses(words: seq<string>, s: string, inner: string, items: seq<Item>, x: string)
    requires Scan(s, []) == Token(words, OpenBrace, inner) && words != [] && !IsLuaName(words[0])
    requires Parse(inner) == Parsed(items, true, "\n" + x)
    ensures Parse(s) == Before(Nested(words, items), Parse(x))
  {
    FeedIsSkipped(x);
  }

  lemma CloseIsRead(depth: nat, x: string)
    ensures Parse(Pad(depth) + "}\n" + x) == Parsed([], true, "\n" + x)
  {
    assert Pad(depth) + "}\n" + x == Spaces(4 * depth) + ("}\n" + x);
    SpacesAreSkipped(4 * depth, "}\n" + x, []);
    assert ("}\n" + x)[1..] == "\n" + x;
  }

  lemma EntryReadsBack(key: Value, value: Value, depth: nat, x: string)
    requires IsValue(key) && IsValue(value)
    ensures Parse(PrintNode(Entry(key, value), depth) + x) == Before(ItemOf(Entry(key, value), depth), Parse(x))
  {
    hide Scan, Render, WordOf, IsValue;
    var tail := Render(value) + ";\n" + x;
    var s := PrintNode(Entry(key, value), depth) + x;
    assert s == Spaces(4 * depth) + (Render(key) + [' '] + tail);
    SpacesAreSkipped(4 * depth, Render(key) + [' '] + tail, []);
    ValueIsOneWord(key, ' ', tail, []);
    assert [' '] + tail == Spaces(1) + tail;
    assert [] + [WordOf(key)] == [WordOf(key)];
    SpacesAreSkipped(1, tail, [WordOf(key)]);
    assert tail == Render(value) + [';'] + ("\n" + x);
    ValueIsOneWord(value, ';', "\n" + x, [WordOf(key)]);
    assert [';'] + ("\n" + x) == ";\n" + x;
    assert [WordOf(key)] + [WordOf(value)] == [WordOf(key), WordOf(value)];
    SimpleReadsBack([WordOf(key), WordOf(value)], s, x);
  }

  lemma LuaReadsBack(name: string, body: string, depth: nat, x: string)
    requires IsNode(Lua(name, body))
    ensures Parse(PrintNode(Lua(name, body), depth) + x) == Before(ItemOf(Lua(name, body), depth), Parse(x))
  {
    hide Scan, IsIdent, LuaText, Spaces, BraceEnd, Balanced;
    var text := "\n" + LuaText(body, depth) + Pad(depth);
    var rest := text + "}" + ("\n" + x);
    var s := PrintNode(Lua(name, body), depth) + x;
    HeadIsWords(name, [], depth, " {" + rest);
    assert s == Pad(depth) + name + Args([]) + (" {" + rest);
    assert [name] + WordsOf([]) == [name];
    OpensBlock([name], rest);
    LuaEndsExactly(body, depth, "\n" + x);
    assert rest[..|text|] == text;
    assert rest[|text| + 1..] == "\n" + x;
    FeedIsSkipped(x);
  }

  lemma {:induction false} NodesReadBack(nodes: seq<Node>, depth: nat, x: string)
    requires forall n | n in nodes :: IsNode(n)
    ensures Parse(Serialize(nodes, depth) + x) == Ahead(ItemsOf(nodes, depth), Parse(x))
    decreases nodes, 1
  {
    hide PrintNode, ItemOf, IsNode, Parse;
    if nodes == [] {
      assert Serialize(nodes, depth) + x == x;
    } else {
      var y := Serialize(nodes[1..], depth) + x;
      assert nodes[0] in nodes;
      assert Serialize(nodes, depth) + x == PrintNode(nodes[0], depth) + y;
      NodeReadsBack(nodes[0], depth, y);
      assert forall n | n in nodes[1..] :: n in nodes;
      NodesReadBack(nodes[1..], depth, x);
    }
  }

  /** Reading what was printed gives back the same tree of words, for every tree and depth. */
  lemma RoundTrip(nodes: seq<Node>, depth: nat)
    requires forall n | n in nodes :: IsNode(n)
    ensures Parse(Serialize(nodes, depth)) == Parsed(ItemsOf(nodes, depth), false, [])
  {
    hide PrintNode, ItemOf, IsNode;
    NodesReadBack(nodes, depth, []);
    assert Serialize(nodes, depth) + [] == Serialize(nodes, depth);
    assert Parse([]) == Parsed([], false, []);
    assert ItemsOf(nodes, depth) + [] == ItemsOf(nodes, depth);
  }

  // ------------------------------------------------------------------ the printer as it runs

  /** The loop over the nodes, recursive for the children of a block. */
  method SerializeNodes(nodes: seq<Node>, depth: nat) returns (out: string)
    ensures out == Serialize(nodes, depth)
    decreases nodes
  {
    hide PrintNode;
    var i := 0;
    out := [];
    assert nodes[0..] == nodes;
    while i < |nodes|
      invariant 0 <= i <= |nodes| && Serialize(nodes, depth) == out + Serialize(nodes[i..], depth)
    {
      var text := SerializeOne(nodes[i], depth);
      assert nodes[i..][1..] == nodes[i + 1..];
      out := out + text;
      i := i + 1;
    }
  }

  method SerializeOne(n: Node, depth: nat) returns (out: string)
    ensures out == PrintNode(n, depth)
    decreases n
  {
    match n {
      case Entry(key, value) => out := Pad(depth) + Render(key) + " " + Render(value) + ";\n";
      case Lua(name, body) =>
        out := Pad(depth) + name + " {\n";
        var text := LuaText(body, depth);
        out := out + text + Pad(depth) + "}\n";
      case Directive(name, args) => out := Pad(depth) + name + Args(args) + ";\n";
      case Block(name, args, children) =>
        out := Pad(depth) + name + Args(args) + " {\n";
        var inner := SerializeNodes(children, depth + 1);
        out := out + inner + Pad(depth) + "}\n";
    }
  }
}
