/**
 * Route source rules (`routeSourceGeos`, `withSourceRules`, `literalRegex` in src/conf/render.ts):
 * the emitted location, executed the way nginx does, against what the rules say.
 */
module SourceRules {
  import opened Wrappers
  import opened ConfWords

  type Pool = nat

  /** Everything about a proxy action but its path rewriting is behind the pool's number. */
  datatype Action = Reject(status: nat) | Redirect(status: nat, target: nat) | Proxy(pool: Pool, rewritePrefix: Option<string>)

  /** An address as bits of one family; a range is a prefix of them. */
  datatype Address = Address(v6: bool, bits: seq<bool>)

  /** Which address a rule looks at: the visitor's, or the connection's as it was before realip. */
  datatype Side = Visitor | Connection

  datatype Rule = Rule(side: Side, from: seq<Address>, action: Action)

  /** The two addresses of one request. */
  datatype Sources = Sources(visitor: Address, connection: Address)

  function Looks(side: Side, a: Sources): Address { if side == Visitor then a.visitor else a.connection }

  const RULE_CODE_BASE: nat := 570
  const MOST_RULES: nat := 20

  // ------------------------------------------------------------------ geo

  predicate InRange(a: Address, range: Address) { a.v6 == range.v6 && range.bits <= a.bits }

  datatype GeoEntry = GeoEntry(range: Address, value: nat)

  /** nginx `geo`: the longest range that holds the address decides, else the default. */
  function Longest(entries: seq<GeoEntry>, a: Address): Option<GeoEntry> {
    if entries == [] then None
    else
      var best := Longest(entries[1..], a);
      if InRange(a, entries[0].range) && (best.None? || |best.value.range.bits| <= |entries[0].range.bits|)
      then Some(entries[0]) else best
  }

  /** A `geo` block: the address it looks at, its entries, its default. */
  datatype Geo = Geo(side: Side, entries: seq<GeoEntry>, default: nat)

  function GeoValue(geo: Geo, a: Sources): nat {
    var best := Longest(geo.entries, Looks(geo.side, a));
    if best.Some? then best.value.value else geo.default
  }

  /** `routeSourceGeos`: one variable per rule, 1 inside its ranges. */
  function RuleGeo(rule: Rule): Geo {
    Geo(rule.side, seq(|rule.from|, i requires 0 <= i < |rule.from| => GeoEntry(rule.from[i], 1)), 0)
  }

  predicate Applies(rule: Rule, a: Sources) { exists range :: range in rule.from && InRange(Looks(rule.side, a), range) }

  lemma {:induction false} LongestIsIn(entries: seq<GeoEntry>, a: Address)
    ensures Longest(entries, a).Some? <==> exists e :: e in entries && InRange(a, e.range)
    ensures Longest(entries, a).Some? ==> Longest(entries, a).value in entries
    decreases |entries|
  {
    if entries != [] {
      LongestIsIn(entries[1..], a);
      assert forall e :: e in entries <==> e == entries[0] || e in entries[1..];
    }
  }

  /** The rule's variable is 1 exactly for the requests whose address on the rule's side is in its ranges. */
  lemma GeoTellsTheRule(rule: Rule, a: Sources)
    ensures GeoValue(RuleGeo(rule), a) == if Applies(rule, a) then 1 else 0
  {
    var entries, at := RuleGeo(rule).entries, Looks(rule.side, a);
    LongestIsIn(entries, at);
    if Applies(rule, a) {
      var range :| range in rule.from && InRange(at, range);
      var i :| 0 <= i < |rule.from| && rule.from[i] == range;
      assert entries[i] in entries;
    }
  }

  // ------------------------------------------------------------------ the emitted location

  /** How a `return` ends a request. */
  datatype Ending = Status(code: nat) | Moved(code: nat, target: nat)

  datatype Statement =
    | ErrorPage(code: nat, rule: nat)
    | If(rule: nat, ending: Ending)
    | Return(ending: Ending)
    | ProxyPass(pool: Pool, uriPart: Option<string>)

  /** A named location: an optional rewrite, then the proxy without a URI part. */
  datatype NamedLocation = NamedLocation(rewrite: Option<(string, string)>, pool: Pool)

  datatype Location = Location(body: seq<Statement>, named: map<nat, NamedLocation>)

  /** `locationBody` */
  function Build(action: Action, ready: set<Pool>): seq<Statement> {
    match action
    case Reject(status) => [Return(Status(status))]
    case Redirect(status, target) => [Return(Moved(status, target))]
    case Proxy(pool, rewritePrefix) => if pool in ready then [ProxyPass(pool, rewritePrefix)] else []
  }

  /** One special character of a regular expression. */
  predicate IsMeta(c: char) {
    c == '.' || c == '*' || c == '+' || c == '?' || c == '^' || c == '$' || c == '{' || c == '}'
    || c == '(' || c == ')' || c == '|' || c == '[' || c == ']' || c == '\\'
  }

  /** `literalRegex` */
  function LiteralRegex(path: string): string {
    if path == [] then [] else (if IsMeta(path[0]) then ['\\', path[0]] else [path[0]]) + LiteralRegex(path[1..])
  }

  function RewritePattern(path: string): string { "^" + LiteralRegex(path) + "(.*)$" }

  /** The statements of rule `i`. */
  function Head(rule: Rule, i: nat, ready: set<Pool>): seq<Statement> {
    match rule.action
    case Reject(status) => [If(i, Status(status))]
    case Redirect(status, target) => [If(i, Moved(status, target))]
    case Proxy(pool, _) =>
      if pool in ready then [ErrorPage(RULE_CODE_BASE + i, i), If(i, Status(RULE_CODE_BASE + i))]
      else [If(i, Status(503))]
  }

  function Heads(rules: seq<Rule>, from: nat, ready: set<Pool>): seq<Statement>
    requires from <= |rules|
    decreases |rules| - from
  {
    if from == |rules| then [] else Head(rules[from], from, ready) + Heads(rules, from + 1, ready)
  }

  function NamedOf(rules: seq<Rule>, path: string, ready: set<Pool>): map<nat, NamedLocation> {
    map i: nat | i < |rules| && rules[i].action.Proxy? && rules[i].action.pool in ready
      :: NamedLocation(
           if rules[i].action.rewritePrefix.Some? then Some((RewritePattern(path), rules[i].action.rewritePrefix.value)) else None,
           rules[i].action.pool)
  }

  /** `withSourceRules` */
  function WithSourceRules(rules: Option<seq<Rule>>, path: string, own: Action, ready: set<Pool>): Location {
    var body := Build(own, ready);
    match rules
    case None => Location(body, map[])
    case Some(rs) => Location(Heads(rs, 0, ready) + (if body != [] then body else [Return(Status(503))]), NamedOf(rs, path, ready))
  }

  // ------------------------------------------------------------------ executing it

  datatype Outcome = Answered(code: nat) | RedirectedTo(code: nat, target: nat) | Passed(pool: Pool, uri: string) | Nothing

  /** The rewrite phase: the first statement that ends the request. */
  function FirstEnding(body: seq<Statement>, holds: nat -> bool): Option<Ending> {
    if body == [] then None
    else if body[0].If? && holds(body[0].rule) then Some(body[0].ending)
    else if body[0].Return? then Some(body[0].ending)
    else FirstEnding(body[1..], holds)
  }

  function PageFor(body: seq<Statement>, code: nat): Option<nat> {
    if body == [] then None
    else if body[0].ErrorPage? && body[0].code == code then Some(body[0].rule)
    else PageFor(body[1..], code)
  }

  function FirstProxy(body: seq<Statement>): Option<Statement> {
    if body == [] then None else if body[0].ProxyPass? then Some(body[0]) else FirstProxy(body[1..])
  }

  /** Matching an escaped literal; a bare dot matches anything but a line feed. */
  function MatchLiteral(pattern: string, s: string): Option<string> {
    if pattern == [] then Some(s)
    else if s == [] then None
    else if pattern[0] == '\\' then
      if |pattern| > 1 && pattern[1] == s[0] then MatchLiteral(pattern[2..], s[1..]) else None
    else if pattern[0] == '.' then if s[0] == '\n' then None else MatchLiteral(pattern[1..], s[1..])
    else if pattern[0] == s[0] then MatchLiteral(pattern[1..], s[1..])
    else None
  }

  /** `(.*)$`: the dot stops at a line feed, and the dollar also stands in front of a last one. */
  function RestOfLine(s: string): Option<string> {
    if '\n' !in s then Some(s)
    else if s != [] && s[|s| - 1] == '\n' && '\n' !in s[..|s| - 1] then Some(s[..|s| - 1])
    else None
  }

  /** `rewrite ^<path>(.*)$ <prefix>$1 break`; without a match the URI stays. */
  function RewriteUri(pattern: string, prefix: string, uri: string): string {
    if |pattern| < 6 then uri
    else
      match MatchLiteral(pattern[1..|pattern| - 5], uri)
      case None => uri
      case Some(rest) => match RestOfLine(rest) case None => uri case Some(one) => prefix + one
  }

  function RunNamed(l: NamedLocation, uri: string): Outcome {
    Passed(l.pool, match l.rewrite case None => uri case Some(r) => RewriteUri(r.0, r.1, uri))
  }

  /** `proxy_pass` with a URI part puts it in place of the location's own prefix. */
  function RunProxy(p: Statement, path: string, uri: string): Outcome
    requires p.ProxyPass?
  {
    match p.uriPart
    case None => Passed(p.pool, uri)
    case Some(prefix) => if path <= uri then Passed(p.pool, prefix + uri[|path|..]) else Passed(p.pool, uri)
  }

  function Finish(l: Location, e: Ending, uri: string): Outcome {
    match e
    case Moved(code, target) => RedirectedTo(code, target)
    case Status(code) =>
      var page := PageFor(l.body, code);
      if page.Some? && page.value in l.named then RunNamed(l.named[page.value], uri) else Answered(code)
  }

  function Execute(l: Location, path: string, holds: nat -> bool, uri: string): Outcome {
    match FirstEnding(l.body, holds)
    case Some(e) => Finish(l, e, uri)
    case None =>
      var p := FirstProxy(l.body);
      if p.Some? && p.value.ProxyPass? then RunProxy(p.value, path, uri) else Nothing
  }

  /** The variables of the rules, for a request from these addresses. */
  function Variables(rules: seq<Rule>, a: Sources): nat -> bool {
    (i: nat) => i < |rules| && GeoValue(RuleGeo(rules[i]), a) != 0
  }

  // ------------------------------------------------------------------ what the rules say

  /** The first rule whose ranges hold the address it looks at. */
  function FirstRule(rules: seq<Rule>, from: nat, a: Sources): Option<nat>
    requires from <= |rules|
    ensures FirstRule(rules, from, a).Some? ==> from <= FirstRule(rules, from, a).value < |rules|
    decreases |rules| - from
  {
    if from == |rules| then None
    else if Applies(rules[from], a) then Some(from)
    else FirstRule(rules, from + 1, a)
  }

  /** What an action does to a request for `uri` under `path`; a proxy rule may rewrite the path its own way. */
  function Does(action: Action, ready: set<Pool>, path: string, uri: string): Outcome
    requires path <= uri
  {
    match action
    case Reject(status) => Answered(status)
    case Redirect(status, target) => RedirectedTo(status, target)
    case Proxy(pool, rewritePrefix) =>
      if pool !in ready then Answered(503)
      else Passed(pool, if rewritePrefix.Some? then rewritePrefix.value + uri[|path|..] else uri)
  }

  function Says(rules: seq<Rule>, own: Action, ready: set<Pool>, a: Sources, path: string, uri: string): Outcome
    requires path <= uri
  {
    match FirstRule(rules, 0, a)
    case Some(i) => Does(rules[i].action, ready, path, uri)
    case None => Does(own, ready, path, uri)
  }

  /** Statuses as the decoder admits them: 403, 404, 444 and redirects, none in the rules' code range. */
  predicate Plain(action: Action) {
    match action
    case Reject(status) => status < RULE_CODE_BASE
    case Redirect(status, _) => status < RULE_CODE_BASE
    case Proxy(_, _) => true
  }

  predicate Admitted(rules: seq<Rule>, own: Action) {
    |rules| <= MOST_RULES && Plain(own) && forall r | r in rules :: Plain(r.action)
  }

  // ------------------------------------------------------------------ the literal in the pattern

  /** The escaped path matches exactly itself. */
  lemma {:induction false} LiteralMatchesItself(path: string, s: string)
    ensures MatchLiteral(LiteralRegex(path), s) == if path <= s then Some(s[|path|..]) else None
    decreases |path|
  {
    if path != [] {
      var p := LiteralRegex(path);
      if s != [] {
        LiteralMatchesItself(path[1..], s[1..]);
        if IsMeta(path[0]) {
          assert p[0] == '\\' && p[1] == path[0] && p[2..] == LiteralRegex(path[1..]);
        } else {
          assert p[0] == path[0] && p[1..] == LiteralRegex(path[1..]);
        }
        PrefixSplit(path, s);
      }
    }
  }

  lemma PrefixSplit(path: string, s: string)
    requires path != [] && s != []
    ensures path <= s <==> path[0] == s[0] && path[1..] <= s[1..]
    ensures path <= s ==> s[1..][|path[1..]|..] == s[|path|..]
  {
    assert path == [path[0]] + path[1..] && s == [s[0]] + s[1..];
  }

  lemma PatternParts(path: string)
    ensures |RewritePattern(path)| >= 6 && RewritePattern(path)[1..|RewritePattern(path)| - 5] == LiteralRegex(path)
  {
    assert RewritePattern(path) == "^" + (LiteralRegex(path) + "(.*)$");
  }

  /** The rewrite puts the new prefix in place of the path exactly when no line feed gets in the way. */
  predicate RewriteMisses(path: string, prefix: string, rest: string) {
    '\n' in rest && (RestOfLine(rest).Some? || path != prefix)
  }

  lemma RewriteReplacesExactly(path: string, prefix: string, uri: string)
    requires path <= uri
    ensures var rest := uri[|path|..];
      RewriteUri(RewritePattern(path), prefix, uri) == prefix + rest <==> !RewriteMisses(path, prefix, rest)
  {
    var rest := uri[|path|..];
    PatternParts(path);
    LiteralMatchesItself(path, uri);
    assert uri == path + rest;
    if RestOfLine(rest).Some? && '\n' in rest {
      assert |prefix + RestOfLine(rest).value| < |prefix + rest|;
    } else if '\n' in rest {
      if path + rest == prefix + rest {
        assert |path| == |prefix|;
        assert path == (path + rest)[..|path|] && prefix == (prefix + rest)[..|prefix|];
      }
    }
  }

  // ------------------------------------------------------------------ the statements of the rules

  lemma VariableIs(rules: seq<Rule>, a: Sources, i: nat)
    requires i < |rules|
    ensures Variables(rules, a)(i) <==> Applies(rules[i], a)
  {
    GeoTellsTheRule(rules[i], a);
  }

  function EndingOf(rule: Rule, i: nat, ready: set<Pool>): Ending {
    match rule.action
    case Reject(status) => Status(status)
    case Redirect(status, target) => Moved(status, target)
    case Proxy(pool, _) => if pool in ready then Status(RULE_CODE_BASE + i) else Status(503)
  }

  /** Reading statements part by part: the rest counts only when the first part says nothing. */
  lemma {:induction false} EndingOver(xs: seq<Statement>, ys: seq<Statement>, holds: nat -> bool)
    ensures FirstEnding(xs + ys, holds) == match FirstEnding(xs, holds) case Some(e) => Some(e) case None => FirstEnding(ys, holds)
  {
    if xs == [] {
      assert xs + ys == ys;
    } else {
      assert (xs + ys)[1..] == xs[1..] + ys;
      EndingOver(xs[1..], ys, holds);
    }
  }

  lemma {:induction false} PageOver(xs: seq<Statement>, ys: seq<Statement>, code: nat)
    ensures PageFor(xs + ys, code) == match PageFor(xs, code) case Some(i) => Some(i) case None => PageFor(ys, code)
  {
    if xs == [] {
      assert xs + ys == ys;
    } else {
      assert (xs + ys)[1..] == xs[1..] + ys;
      PageOver(xs[1..], ys, code);
    }
  }

  lemma {:induction false} ProxyOver(xs: seq<Statement>, ys: seq<Statement>)
    ensures FirstProxy(xs + ys) == match FirstProxy(xs) case Some(p) => Some(p) case None => FirstProxy(ys)
  {
    if xs == [] {
      assert xs + ys == ys;
    } else {
      assert (xs + ys)[1..] == xs[1..] + ys;
      ProxyOver(xs[1..], ys);
    }
  }

  lemma OneSays(x: Statement, holds: nat -> bool, code: nat)
    ensures FirstEnding([x], holds) == if (x.If? && holds(x.rule)) || x.Return? then Some(x.ending) else None
    ensures PageFor([x], code) == if x.ErrorPage? && x.code == code then Some(x.rule) else None
    ensures FirstProxy([x]) == if x.ProxyPass? then Some(x) else None
  {
    assert [x][1..] == [];
  }

  lemma HeadSays(rule: Rule, i: nat, ready: set<Pool>, holds: nat -> bool, code: nat)
    ensures FirstEnding(Head(rule, i, ready), holds) == if holds(i) then Some(EndingOf(rule, i, ready)) else None
    ensures PageFor(Head(rule, i, ready), code) == if HasPage(rule, ready) && code == RULE_CODE_BASE + i then Some(i) else None
    ensures FirstProxy(Head(rule, i, ready)) == None
  {
    hide FirstEnding, PageFor, FirstProxy;
    var h := Head(rule, i, ready);
    OneSays(h[0], holds, code);
    if |h| == 2 {
      OneSays(h[1], holds, code);
      assert h == [h[0]] + [h[1]];
      EndingOver([h[0]], [h[1]], holds);
      PageOver([h[0]], [h[1]], code);
      ProxyOver([h[0]], [h[1]]);
    } else {
      assert h == [h[0]];
    }
  }

  lemma HeadsJoin(rules: seq<Rule>, from: nat, ready: set<Pool>, tail: seq<Statement>)
    requires from < |rules|
    ensures Heads(rules, from, ready) + tail == Head(rules[from], from, ready) + (Heads(rules, from + 1, ready) + tail)
  {
  }

  lemma {:induction false} FirstEndingOfHeads(rules: seq<Rule>, from: nat, ready: set<Pool>, a: Sources, tail: seq<Statement>)
    requires from <= |rules|
    ensures FirstEnding(Heads(rules, from, ready) + tail, Variables(rules, a)) ==
      match FirstRule(rules, from, a)
      case Some(i) => Some(EndingOf(rules[i], i, ready))
      case None => FirstEnding(tail, Variables(rules, a))
    decreases |rules| - from
  {
    hide Variables, GeoValue, Head, FirstEnding;
    if from == |rules| {
      assert Heads(rules, from, ready) + tail == tail;
    } else {
      VariableIs(rules, a, from);
      FirstEndingOfHeads(rules, from + 1, ready, a, tail);
      HeadsJoin(rules, from, ready, tail);
      HeadSays(rules[from], from, ready, Variables(rules, a), 0);
      EndingOver(Head(rules[from], from, ready), Heads(rules, from + 1, ready) + tail, Variables(rules, a));
    }
  }

  lemma {:induction false} PageOfHeads(rules: seq<Rule>, from: nat, ready: set<Pool>, code: nat, tail: seq<Statement>)
    requires from <= |rules|
    ensures PageFor(Heads(rules, from, ready) + tail, code) ==
      (if code >= RULE_CODE_BASE + from && code - RULE_CODE_BASE < |rules| && HasPage(rules[code - RULE_CODE_BASE], ready)
       then Some(code - RULE_CODE_BASE) else PageFor(tail, code))
    decreases |rules| - from
  {
    hide Head, PageFor;
    if from == |rules| {
      assert Heads(rules, from, ready) + tail == tail;
    } else {
      PageOfHeads(rules, from + 1, ready, code, tail);
      HeadsJoin(rules, from, ready, tail);
      HeadSays(rules[from], from, ready, Never, code);
      PageOver(Head(rules[from], from, ready), Heads(rules, from + 1, ready) + tail, code);
    }
  }

  predicate Never(i: nat) { false }

  predicate HasPage(rule: Rule, ready: set<Pool>) { rule.action.Proxy? && rule.action.pool in ready }

  /** The proxy of a route comes after all its rules. */
  lemma {:induction false} ProxyOfHeads(rules: seq<Rule>, from: nat, ready: set<Pool>, tail: seq<Statement>)
    requires from <= |rules|
    ensures FirstProxy(Heads(rules, from, ready) + tail) == FirstProxy(tail)
    decreases |rules| - from
  {
    hide Head, FirstProxy;
    if from == |rules| {
      assert Heads(rules, from, ready) + tail == tail;
    } else {
      ProxyOfHeads(rules, from + 1, ready, tail);
      HeadsJoin(rules, from, ready, tail);
      HeadSays(rules[from], from, ready, Never, 0);
      ProxyOver(Head(rules[from], from, ready), Heads(rules, from + 1, ready) + tail);
    }
  }

  // ------------------------------------------------------------------ the theorems

  /** What the emitted location does to a request, with the rule proxies' rewrites as nginx performs them. */
  function DoesByRule(action: Action, ready: set<Pool>, path: string, uri: string): Outcome
    requires path <= uri
  {
    if action.Proxy? && action.pool in ready && action.rewritePrefix.Some?
    then Passed(action.pool, RewriteUri(RewritePattern(path), action.rewritePrefix.value, uri))
    else Does(action, ready, path, uri)
  }

  lemma RuleEnds(rules: seq<Rule>, own: Action, ready: set<Pool>, a: Sources, path: string, uri: string, i: nat)
    requires Admitted(rules, own) && path <= uri && FirstRule(rules, 0, a) == Some(i)
    ensures Execute(WithSourceRules(Some(rules), path, own, ready), path, Variables(rules, a), uri) == DoesByRule(rules[i].action, ready, path, uri)
  {
    hide Variables, Heads, RewriteUri, RewritePattern, FirstRule;
    var l := WithSourceRules(Some(rules), path, own, ready);
    var tail := if Build(own, ready) != [] then Build(own, ready) else [Return(Status(503))];
    assert l.body == Heads(rules, 0, ready) + tail;
    FirstEndingOfHeads(rules, 0, ready, a, tail);
    assert rules[i] in rules;
    var e := EndingOf(rules[i], i, ready);
    if e.Status? {
      PageOfHeads(rules, 0, ready, e.code, tail);
    }
  }

  lemma OwnEnds(rules: seq<Rule>, own: Action, ready: set<Pool>, a: Sources, path: string, uri: string)
    requires Admitted(rules, own) && path <= uri && FirstRule(rules, 0, a) == None
    ensures Execute(WithSourceRules(Some(rules), path, own, ready), path, Variables(rules, a), uri) == Does(own, ready, path, uri)
  {
    hide Variables, Heads, RewriteUri, RewritePattern, FirstRule;
    var l := WithSourceRules(Some(rules), path, own, ready);
    var tail := if Build(own, ready) != [] then Build(own, ready) else [Return(Status(503))];
    assert l.body == Heads(rules, 0, ready) + tail;
    FirstEndingOfHeads(rules, 0, ready, a, tail);
    ProxyOfHeads(rules, 0, ready, tail);
    var e := FirstEnding(tail, Variables(rules, a));
    if e.Some? && e.value.Status? {
      PageOfHeads(rules, 0, ready, e.value.code, tail);
    }
  }

  /** The request is answered by a rule whose rewrite a line feed defeats. */
  predicate Defeated(rules: seq<Rule>, ready: set<Pool>, a: Sources, path: string, uri: string)
    requires path <= uri
  {
    match FirstRule(rules, 0, a)
    case None => false
    case Some(i) =>
      var action := rules[i].action;
      action.Proxy? && action.pool in ready && action.rewritePrefix.Some? && RewriteMisses(path, action.rewritePrefix.value, uri[|path|..])
  }

  /**
   * For every pair of source addresses and every URI the emitted location does what the first matching rule
   * says, else what the route says, exactly unless a line feed in the decoded path defeats the
   * rewrite of that rule.
   */
  lemma LocationDoesWhatRulesSay(rules: seq<Rule>, own: Action, ready: set<Pool>, a: Sources, path: string, uri: string)
    requires Admitted(rules, own) && path <= uri
    ensures Execute(WithSourceRules(Some(rules), path, own, ready), path, Variables(rules, a), uri) == Says(rules, own, ready, a, path, uri)
      <==> !Defeated(rules, ready, a, path, uri)
  {
    hide Execute, WithSourceRules, Variables, RewriteUri, RewritePattern, FirstRule, RewriteMisses;
    match FirstRule(rules, 0, a)
    case None => OwnEnds(rules, own, ready, a, path, uri);
    case Some(i) =>
      RuleEnds(rules, own, ready, a, path, uri, i);
      var action := rules[i].action;
      if action.Proxy? && action.rewritePrefix.Some? { RewriteReplacesExactly(path, action.rewritePrefix.value, uri); }
  }

  /** Without rules the location is the route's own body, and there is none when its pool is empty. */
  lemma NoRulesNoChange(own: Action, ready: set<Pool>, path: string, uri: string, holds: nat -> bool)
    requires path <= uri
    ensures var l := WithSourceRules(None, path, own, ready);
      if own.Proxy? && own.pool !in ready then l.body == [] else Execute(l, path, holds, uri) == Does(own, ready, path, uri)
  {
    var l := WithSourceRules(None, path, own, ready);
    match own
    case Reject(status) => assert l.body[1..] == [] && FirstEnding(l.body, holds) == Some(Status(status));
    case Redirect(status, target) => assert FirstEnding(l.body, holds) == Some(Moved(status, target));
    case Proxy(pool, rewritePrefix) =>
      if pool in ready { assert l.body[1..] == [] && FirstProxy(l.body) == Some(ProxyPass(pool, rewritePrefix)) && FirstEnding(l.body, holds) == None; }
  }

  /** The characters of a path, as the validator admits them. */
  predicate IsPathChar(c: char) {
    IsLetter(c) || IsDigit(c) || c == '-' || c == '.' || c == '~' || c == '/' || c == '%'
  }

  lemma {:induction false} LiteralChars(path: string)
    requires forall c | c in path :: IsPathChar(c)
    ensures forall c | c in LiteralRegex(path) :: IsPathChar(c) || c == '\\'
    ensures forall i :: 0 <= i < |LiteralRegex(path)| - 1 && LiteralRegex(path)[i] == '\\' ==> LiteralRegex(path)[i + 1] == '.'
    ensures LiteralRegex(path) != [] ==> LiteralRegex(path)[|LiteralRegex(path)| - 1] != '\\'
    decreases |path|
  {
    if path != [] {
      assert path[0] in path;
      assert forall c | c in path[1..] :: c in path;
      LiteralChars(path[1..]);
    }
  }

  lemma PatternPairs(l: string, i: nat)
    requires forall k :: 0 <= k < |l| - 1 && l[k] == '\\' ==> l[k + 1] == '.'
    requires l != [] ==> l[|l| - 1] != '\\'
    requires i < |l| + 5
    ensures var p := "^" + l + "(.*)$"; !IsPair(p[i], p[i + 1])
  {
    var p := "^" + l + "(.*)$";
    if 1 <= i <= |l| {
      assert p[i] == l[i - 1];
      if i < |l| { assert p[i + 1] == l[i]; }
    } else if i > |l| {
      assert p[i] == "(.*)$"[i - |l| - 1];
    }
  }

  lemma PatternChars(l: string, c: char)
    requires forall d | d in l :: IsPathChar(d) || d == '\\'
    requires c in "^" + l + "(.*)$"
    ensures !BreaksRegex(c)
  {
    assert c in "^" || c in l || c in "(.*)$";
  }

  /** The pattern is an accepted regex value and the configuration reader leaves it as it is. */
  lemma PatternSurvivesPrinting(path: string)
    requires forall c | c in path :: IsPathChar(c)
    ensures IsValue(Regex(RewritePattern(path))) && WordOf(Regex(RewritePattern(path))) == RewritePattern(path)
  {
    hide LiteralRegex, IsPair, BreaksRegex, IsPathChar, Unescape;
    var l, p := LiteralRegex(path), RewritePattern(path);
    LiteralChars(path);
    forall i | 0 <= i < |p| - 1 ensures !IsPair(p[i], p[i + 1]) { PatternPairs(l, i); }
    forall c | c in p ensures !BreaksRegex(c) { PatternChars(l, c); }
    RegexIsKeptExactly(p);
    assert p[|p| - 1] == '$';
  }
}
