/**
 * What the printer does to the body of a Lua block (src/conf/ast.ts): the text stays, relative
 * indentation stays, and only the depth of the block is added.
 */
module ConfLua {
  import opened Wrappers
  import opened ConfWords
  import opened ConfPrinter

  // ------------------------------------------------------------------ the text stays

  /** The text without its white space. */
  function Solid(s: string): string {
    if s == [] then [] else (if IsSpace(s[0]) then [] else [s[0]]) + Solid(s[1..])
  }

  lemma {:induction false} SolidAdds(a: string, b: string)
    ensures Solid(a + b) == Solid(a) + Solid(b)
    decreases |a|
  {
    if a == [] {
      assert a + b == b;
    } else {
      assert (a + b)[1..] == a[1..] + b;
      SolidAdds(a[1..], b);
    }
  }

  lemma {:induction false} SpaceIsNotSolid(s: string)
    requires forall c | c in s :: IsSpace(c)
    ensures Solid(s) == []
    decreases |s|
  {
    if s != [] { SpaceIsNotSolid(s[1..]); }
  }

  /** Leading line feeds, the body, trailing white space: nothing else is cut off, and nothing of that is left. */
  lemma BodyIsTrimmed(body: string) returns (feeds: string, tail: string)
    ensures body == feeds + DropTail(DropFeeds(body)) + tail
    ensures (forall c | c in feeds :: c == '\n') && (forall c | c in tail :: IsSpace(c))
    ensures var s := DropTail(DropFeeds(body)); s != [] ==> s[0] != '\n' && !IsSpace(s[|s| - 1])
  {
    feeds := FeedsOff(body);
    tail := TailOff(DropFeeds(body));
    var s := DropTail(DropFeeds(body));
    assert feeds + s + tail == feeds + (s + tail);
    if s != [] { assert DropFeeds(body)[0] == s[0]; }
  }

  lemma {:induction false} FeedsOff(s: string) returns (feeds: string)
    ensures s == feeds + DropFeeds(s) && (forall c | c in feeds :: c == '\n')
    ensures DropFeeds(s) != [] ==> DropFeeds(s)[0] != '\n'
    decreases |s|
  {
    feeds := [];
    if s != [] && s[0] == '\n' {
      var more := FeedsOff(s[1..]);
      feeds := ['\n'] + more;
      assert s == ['\n'] + s[1..];
    }
  }

  lemma {:induction false} TailOff(s: string) returns (tail: string)
    ensures s == DropTail(s) + tail && (forall c | c in tail :: IsSpace(c))
    ensures DropTail(s) != [] ==> !IsSpace(DropTail(s)[|DropTail(s)| - 1])
    decreases |s|
  {
    tail := [];
    if s != [] && IsSpace(s[|s| - 1]) {
      var n := |s| - 1;
      var more := TailOff(s[..n]);
      tail := more + [s[n]];
      assert s == s[..n] + [s[n]];
    }
  }

  /** The lines, each with its line feed. */
  function Joined(lines: seq<string>): string {
    if lines == [] then [] else lines[0] + "\n" + Joined(lines[1..])
  }

  /** The lines are those of the text, and none holds a line feed. */
  lemma {:induction false} LinesAreTheText(s: string)
    ensures Joined(Lines(s)) == s + "\n"
    ensures forall l | l in Lines(s) :: '\n' !in l
    decreases |s|
  {
    var l := FirstLine(s);
    FirstLineLacksFeed(s);
    if |l| < |s| {
      var rest := s[|l| + 1..];
      LinesAreTheText(rest);
      assert s == l + "\n" + rest;
      assert Lines(s)[1..] == Lines(rest);
      assert l + "\n" + (rest + "\n") == s + "\n";
      assert forall x | x in Lines(s) :: x == l || x in Lines(rest);
    } else {
      assert s == l;
      assert Lines(s) == [l] && Joined([l]) == l + "\n" + [];
    }
  }

  lemma {:induction false} FirstLineLacksFeed(s: string)
    ensures '\n' !in FirstLine(s)
    decreases |s|
  {
    if s != [] && s[0] != '\n' { FirstLineLacksFeed(s[1..]); }
  }

  lemma {:induction false} PrintedSolid(lines: seq<string>, strip: Option<nat>, pad: string)
    requires StripFits(lines, strip) && forall c | c in pad :: IsSpace(c)
    ensures Solid(PrintLines(lines, strip, pad)) == Solid(Joined(lines))
    decreases |lines|
  {
    if lines != [] {
      var l := lines[0];
      var first := if IsBlankLine(l) then "\n" else pad + Stripped(l, strip) + "\n";
      LineSolid(l, strip, pad);
      SolidAdds(first, PrintLines(lines[1..], strip, pad));
      SolidAdds(l + "\n", Joined(lines[1..]));
      assert forall x | x in lines[1..] :: x in lines;
      PrintedSolid(lines[1..], strip, pad);
    }
  }

  lemma LineSolid(l: string, strip: Option<nat>, pad: string)
    requires StripFits([l], strip) && forall c | c in pad :: IsSpace(c)
    ensures Solid(if IsBlankLine(l) then "\n" else pad + Stripped(l, strip) + "\n") == Solid(l + "\n")
  {
    SolidAdds(l, "\n");
    if IsBlankLine(l) {
      SpaceIsNotSolid(l);
    } else {
      assert l in [l];
      IndentIsSpace(l);
      var k := strip.value;
      assert l == l[..k] + l[k..];
      SolidAdds(l[..k], l[k..]);
      SpaceIsNotSolid(l[..k]);
      SolidAdds(pad + l[k..], "\n");
      SolidAdds(pad, l[k..]);
      SpaceIsNotSolid(pad);
    }
  }

  /** Printing a Lua body touches nothing but white space. */
  lemma LuaKeepsText(body: string, depth: nat)
    ensures Solid(LuaText(body, depth)) == Solid(body)
  {
    hide Solid, DropFeeds, DropTail;
    var s := DropTail(DropFeeds(body));
    var feeds, tail := BodyIsTrimmed(body);
    SpacesNeutral(4 * (depth + 1));
    LeastIndentFits(Lines(s));
    PrintedSolid(Lines(s), LeastIndent(Lines(s)), Pad(depth + 1));
    LinesAreTheText(s);
    SolidAdds(s, "\n");
    SpaceIsNotSolid("\n");
    SolidAdds(feeds + s, tail);
    SolidAdds(feeds, s);
    SpaceIsNotSolid(feeds);
    SpaceIsNotSolid(tail);
    assert Solid(s) + [] == Solid(s) && [] + Solid(s) == Solid(s);
  }

  // ------------------------------------------------------------------ relative indentation stays

  /** The smallest indentation: none if all lines are blank, else one that a line has and no line that is not blank undercuts. */
  lemma {:induction false} LeastIndentIs(lines: seq<string>)
    ensures LeastIndent(lines).None? <==> forall l | l in lines :: IsBlankLine(l)
    ensures LeastIndent(lines).Some? ==>
      && (exists l :: l in lines && !IsBlankLine(l) && Indent(l) == LeastIndent(lines).value)
      && (forall l | l in lines && !IsBlankLine(l) :: LeastIndent(lines).value <= Indent(l))
    decreases |lines|
  {
    hide IsBlankLine, Indent;
    if lines != [] {
      LeastIndentIs(lines[1..]);
      assert forall l :: l in lines <==> l == lines[0] || l in lines[1..];
    }
  }

  function TrimStart(s: string): string {
    if s != [] && IsSpace(s[0]) then TrimStart(s[1..]) else s
  }

  /** The line as it was from its first character that is no white space, moved by this many places; a blank line is empty. */
  predicate Shifted(line: string, out: string, places: int) {
    if IsBlankLine(line) then out == "" else Indent(out) == Indent(line) + places && TrimStart(out) == TrimStart(line)
  }

  lemma {:induction false} IndentAdds(a: string, b: string)
    requires forall c | c in a :: IsSpace(c)
    ensures Indent(a + b) == |a| + Indent(b) && TrimStart(a + b) == TrimStart(b)
    decreases |a|
  {
    if a == [] {
      assert a + b == b;
    } else {
      assert (a + b)[1..] == a[1..] + b;
      IndentAdds(a[1..], b);
    }
  }

  lemma StripShifts(l: string, k: nat, pad: string)
    requires !IsBlankLine(l) && k <= Indent(l) && forall c | c in pad :: IsSpace(c)
    ensures Shifted(l, pad + Stripped(l, Some(k)), |pad| - k)
  {
    IndentIsSpace(l);
    assert l == l[..k] + l[k..];
    IndentAdds(l[..k], l[k..]);
    IndentAdds(pad, l[k..]);
  }

  /** What `PrintLines` prints, line by line. */
  function Printed(l: string, strip: Option<nat>, pad: string): string {
    if IsBlankLine(l) then "" else pad + Stripped(l, strip)
  }

  lemma {:induction false} FirstLineIs(x: string, rest: string)
    requires '\n' !in x
    ensures FirstLine(x + "\n" + rest) == x && Lines(x + "\n" + rest) == [x] + Lines(rest)
    decreases |x|
  {
    var s := x + "\n" + rest;
    FirstLineUpTo(x, rest);
    assert s[|x| + 1..] == rest;
  }

  lemma {:induction false} FirstLineUpTo(x: string, rest: string)
    requires '\n' !in x
    ensures FirstLine(x + "\n" + rest) == x
    decreases |x|
  {
    if x == [] {
      assert x + "\n" + rest == "\n" + rest;
    } else {
      assert (x + "\n" + rest)[1..] == x[1..] + "\n" + rest;
      FirstLineUpTo(x[1..], rest);
    }
  }

  lemma {:induction false} PrintedLines(lines: seq<string>, strip: Option<nat>, pad: string)
    requires '\n' !in pad && forall l | l in lines :: '\n' !in l
    ensures var out := Lines(PrintLines(lines, strip, pad));
      && |out| == |lines| + 1 && out[|lines|] == ""
      && forall i :: 0 <= i < |lines| ==> out[i] == Printed(lines[i], strip, pad)
    decreases |lines|
  {
    if lines == [] {
      assert Lines([]) == [[]];
    } else {
      PrintLinesIs(lines, strip, pad);
      hide Lines, PrintLines, Printed;
      var x := Printed(lines[0], strip, pad);
      var rest := PrintLines(lines[1..], strip, pad);
      assert lines[0] in lines;
      assert forall l | l in lines[1..] :: l in lines;
      PrintedLines(lines[1..], strip, pad);
      FirstLineIs(x, rest);
      var out := Lines(rest);
      assert Lines(PrintLines(lines, strip, pad)) == [x] + out;
      forall i | 0 <= i < |lines| ensures ([x] + out)[i] == Printed(lines[i], strip, pad) {
        if i > 0 { assert lines[i] == lines[1..][i - 1]; }
      }
    }
  }

  lemma PrintLinesIs(lines: seq<string>, strip: Option<nat>, pad: string)
    requires lines != [] && '\n' !in pad && '\n' !in lines[0]
    ensures PrintLines(lines, strip, pad) == Printed(lines[0], strip, pad) + "\n" + PrintLines(lines[1..], strip, pad)
    ensures '\n' !in Printed(lines[0], strip, pad)
  {
  }

  /**
   * Line by line, the body is moved as a whole: its leftmost line to four places per level of
   * depth, every other line by as much; blank lines come out empty.
   */
  lemma LuaShiftsLines(body: string, depth: nat)
    ensures var lines, out := BodyLines(body), Lines(LuaText(body, depth));
      && |out| == |lines| + 1 && out[|lines|] == ""
      && forall i :: 0 <= i < |lines| ==>
           Shifted(lines[i], out[i], 4 * (depth + 1) - if LeastIndent(lines).Some? then LeastIndent(lines).value else 0)
  {
    hide *;
    var lines, pad, strip := BodyLines(body), Pad(depth + 1), LeastIndent(BodyLines(body));
    BodyParts(body, depth);
    PrintedLines(lines, strip, pad);
    forall i | 0 <= i < |lines|
      ensures Shifted(lines[i], Printed(lines[i], strip, pad), 4 * (depth + 1) - if strip.Some? then strip.value else 0)
    {
      LineShifts(lines, i, strip, pad);
    }
  }

  lemma BodyParts(body: string, depth: nat)
    ensures var lines, pad := BodyLines(body), Pad(depth + 1);
      && LuaText(body, depth) == PrintLines(lines, LeastIndent(lines), pad) && StripFits(lines, LeastIndent(lines))
      && |pad| == 4 * (depth + 1) && '\n' !in pad && (forall c | c in pad :: IsSpace(c))
      && (forall l | l in lines :: '\n' !in l)
  {
    hide Lines, PrintLines, LeastIndent, StripFits, DropTail, DropFeeds;
    SpacesNeutral(4 * (depth + 1));
    LinesAreTheText(DropTail(DropFeeds(body)));
    LeastIndentFits(BodyLines(body));
  }

  lemma LineShifts(lines: seq<string>, i: nat, strip: Option<nat>, pad: string)
    requires i < |lines| && StripFits(lines, strip) && forall c | c in pad :: IsSpace(c)
    ensures Shifted(lines[i], Printed(lines[i], strip, pad), |pad| - if strip.Some? then strip.value else 0)
  {
    hide Shifted, Stripped, Indent;
    var l := lines[i];
    assert l in lines;
    if IsBlankLine(l) { BlankShifts(l, strip, pad); } else { StripShifts(l, strip.value, pad); }
  }

  lemma BlankShifts(l: string, strip: Option<nat>, pad: string)
    requires IsBlankLine(l)
    ensures Shifted(l, Printed(l, strip, pad), |pad| - if strip.Some? then strip.value else 0)
  {
  }
}
