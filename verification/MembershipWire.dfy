/**
 * The membership wire: what the control plane writes (`encodeSlots`), what the http admin
 * stages into the shared dict, removes and reads back (src/control/membership.ts).
 */
module MembershipWire {
  import opened Wrappers
  import opened Sorting
  import opened Text

  // ------------------------------------------------------------------ what is sent

  datatype Attr = Attr(max: Option<nat>, backup: bool)

  /** The slots of one upstream; a peer may occur several times. */
  datatype Slots = Slots(name: string, peers: seq<string>)

  datatype PeerAttr = PeerAttr(peer: string, attr: Attr)

  /** The attributes of one upstream, a peer at most once. */
  datatype Attrs = Attrs(name: string, peers: seq<PeerAttr>)

  predicate IsDigit(c: char) { '0' <= c <= '9' }

  predicate IsNumber(s: string) { s != [] && forall c | c in s :: IsDigit(c) }

  /** Upstream names are nginx identifiers. */
  predicate IsName(s: string) {
    s != [] && forall c | c in s :: IsDigit(c) || 'a' <= c <= 'z' || 'A' <= c <= 'Z' || c == '_'
  }

  /** `host:port`, with a host that has no colon and none of the characters the wire uses. */
  predicate IsPeer(s: string) {
    match CutAtLast(s, ':')
    case NoCut => false
    case Cut(host, port) =>
      host != [] && IsNumber(port) && forall c | c in host :: c != ':' && c != ',' && c != '|' && c != '\n'
  }

  function Digit(d: nat): char
    requires d < 10
  {
    ('0' as int + d) as char
  }

  function Digits(n: nat): (r: string)
    ensures IsNumber(r)
  {
    if n < 10 then [Digit(n)] else Digits(n / 10) + [Digit(n % 10)]
  }

  function AttrText(a: Attr): string {
    (if a.max.Some? then Digits(a.max.value) else "") + "|" + (if a.backup then "1" else "")
  }

  function Entry(p: PeerAttr): string { p.peer + "|" + AttrText(p.attr) }

  function Entries(ps: seq<PeerAttr>): (r: seq<string>)
    ensures |r| == |ps|
    ensures forall i :: 0 <= i < |ps| ==> r[i] == Entry(ps[i])
  {
    seq(|ps|, i requires 0 <= i < |ps| => Entry(ps[i]))
  }

  function ByPeer(): (PeerAttr, PeerAttr) -> bool { (a: PeerAttr, b: PeerAttr) => StringLe(a.peer, b.peer) }

  function SlotLine(s: Slots): string { s.name + "=" + Join(s.peers, ',') }

  function AttrLineOf(name: string, entries: seq<string>): string { "!" + name + "=" + Join(entries, ',') }

  /** The writer sorts the entries by peer. */
  function AttrLine(a: Attrs): string { AttrLineOf(a.name, Entries(SortBy(a.peers, ByPeer()))) }

  /** The reader sorts the finished entries. */
  function ReadLine(a: Attrs): string { AttrLineOf(a.name, SortText(Entries(a.peers))) }

  function SlotLines(slots: seq<Slots>): (r: seq<string>)
    ensures |r| == |slots|
    ensures forall i :: 0 <= i < |slots| ==> r[i] == SlotLine(slots[i])
  {
    seq(|slots|, i requires 0 <= i < |slots| => SlotLine(slots[i]))
  }

  function AttrLines(attrs: seq<Attrs>, asRead: bool): seq<string> {
    if attrs == [] then []
    else
      (if attrs[0].peers == [] then [] else [if asRead then ReadLine(attrs[0]) else AttrLine(attrs[0])])
      + AttrLines(attrs[1..], asRead)
  }

  /** All lines, sorted together. */
  function TextOf(slots: seq<Slots>, attrs: seq<Attrs>, asRead: bool): string {
    Join(SortText(SlotLines(slots) + AttrLines(attrs, asRead)), '\n')
  }

  /** `encodeSlots`. */
  function Encode(slots: seq<Slots>, attrs: seq<Attrs>): string { TextOf(slots, attrs, false) }

  /** Unique names (they are the keys of a record), unique peers with attributes, proper texts. */
  ghost predicate WellFormed(slots: seq<Slots>, attrs: seq<Attrs>) {
    && (forall i, j :: 0 <= i < j < |slots| ==> slots[i].name != slots[j].name)
    && (forall i, j :: 0 <= i < j < |attrs| ==> attrs[i].name != attrs[j].name)
    && (forall s | s in slots :: IsName(s.name) && forall p | p in s.peers :: IsPeer(p))
    && (forall a | a in attrs :: AttrsOk(a))
  }

  ghost predicate AttrsOk(a: Attrs) {
    && IsName(a.name)
    && (forall p | p in a.peers :: IsPeer(p.peer))
    && (forall i, j :: 0 <= i < j < |a.peers| ==> a.peers[i].peer != a.peers[j].peer)
  }

  // ------------------------------------------------------------------ the dict and its keys

  type Dict = map<string, string>

  function SlotKey(name: string, epoch: string): string { "slot:" + name + (":" + epoch) }

  function AttrKey(name: string, peer: string, epoch: string): string { "attr:" + (name + ":" + peer) + (":" + epoch) }

  // ------------------------------------------------------------------ staging

  function StageEntry(d: Dict, name: string, entry: string, epoch: string): Dict {
    match CutAt(entry, '|')
    case NoCut => d
    case Cut(peer, rest) => d[AttrKey(name, peer, epoch) := rest]
  }

  function StageEntries(d: Dict, name: string, entries: seq<string>, epoch: string): Dict {
    if entries == [] then d
    else StageEntry(StageEntries(d, name, entries[..|entries| - 1], epoch), name, entries[|entries| - 1], epoch)
  }

  function StageLine(d: Dict, line: string, epoch: string): Dict {
    if line != [] && line[0] == '!' then
      match CutAt(line[1..], '=')
      case NoCut => d
      case Cut(name, list) => if name == [] then d else StageEntries(d, name, Pieces(list, ','), epoch)
    else
      match CutAt(line, '=')
      case NoCut => d
      case Cut(name, peers) => if name == [] then d else d[SlotKey(name, epoch) := peers]
  }

  /** A line without `=`, or with nothing in front of it, stages nothing. */
  lemma NamelessIsSkipped(d: Dict, line: string, epoch: string)
    requires '=' !in line || line[0] == '=' || (line[0] == '!' && |line| > 1 && line[1] == '=')
    ensures StageLine(d, line, epoch) == d
  {
  }

  function StageLines(d: Dict, lines: seq<string>, epoch: string): Dict {
    if lines == [] then d
    else StageLine(StageLines(d, lines[..|lines| - 1], epoch), lines[|lines| - 1], epoch)
  }

  function Stage(d: Dict, text: string, epoch: string): Dict {
    StageLines(d, Pieces(text, '\n'), epoch)
  }

  // ------------------------------------------------------------------ removing

  /** The retired epoch's keys: both kinds, and the suffix. */
  predicate IsOfEpoch(k: string, epoch: string) {
    |k| >= 5 && (k[..5] == "slot:" || k[..5] == "attr:") && EndsWith(k, ":" + epoch)
  }

  function Removed(d: Dict, epoch: string): Dict {
    map k | k in d && !IsOfEpoch(k, epoch) :: d[k]
  }

  // ------------------------------------------------------------------ reading back

  /** `^slot:(.+):<epoch>$` */
  function SlotMatch(k: string, epoch: string): Option<string> {
    var m := Between(k, "slot:", ":" + epoch);
    if m.Some? && m.value != [] then m else None
  }

  datatype NamePeer = NamePeer(name: string, peer: string)

  /** `^attr:(.+):([^:]+:%d+):<epoch>$` */
  function AttrMatch(k: string, epoch: string): Option<NamePeer> {
    match Between(k, "attr:", ":" + epoch)
    case None => None
    case Some(mid) =>
      match CutAtLast(mid, ':')
      case NoCut => None
      case Cut(front, port) =>
        match CutAtLast(front, ':')
        case NoCut => None
        case Cut(name, host) =>
          if IsNumber(port) && host != [] && name != [] then Some(NamePeer(name, host + ":" + port)) else None
  }

  ghost predicate IsEntryOf(d: Dict, epoch: string, name: string, entry: string) {
    exists k :: k in d && AttrMatch(k, epoch).Some? && AttrMatch(k, epoch).value.name == name
                && entry == AttrMatch(k, epoch).value.peer + "|" + d[k]
  }

  /** A line the reader prints. */
  ghost predicate IsReadLine(d: Dict, epoch: string, line: string) {
    || (exists k :: k in d && SlotMatch(k, epoch).Some? && line == SlotMatch(k, epoch).value + "=" + d[k])
    || (exists name, entries :: entries != [] && Lists(d, epoch, name, entries) && line == AttrLineOf(name, SortText(entries)))
  }

  /** The entries of one name, each once, in any order. */
  ghost predicate Lists(d: Dict, epoch: string, name: string, entries: seq<string>) {
    NoRepeats(entries) && forall e :: e in entries <==> IsEntryOf(d, epoch, name, e)
  }

  /** What `/membership/read` prints, whatever order the dict lists its keys in. */
  ghost predicate IsReadOf(d: Dict, epoch: string, text: string) {
    exists lines :: NoRepeats(lines) && (forall x :: x in lines <==> IsReadLine(d, epoch, x)) && text == Join(SortText(lines), '\n')
  }

  /** The answer is determined. */
  lemma ReadIsOneText(d: Dict, epoch: string, a: string, b: string)
    requires IsReadOf(d, epoch, a) && IsReadOf(d, epoch, b)
    ensures a == b
  {
    hide IsReadLine;
    var la :| NoRepeats(la) && (forall x :: x in la <==> IsReadLine(d, epoch, x)) && a == Join(SortText(la), '\n');
    var lb :| NoRepeats(lb) && (forall x :: x in lb <==> IsReadLine(d, epoch, x)) && b == Join(SortText(lb), '\n');
    SameMembersSortAlike(la, lb);
  }

  // ------------------------------------------------------------------ the texts

  lemma {:induction false} DigitsLack(n: nat, c: char)
    requires !IsDigit(c)
    ensures c !in Digits(n)
  {
  }

  lemma PeerParts(p: string)
    requires IsPeer(p)
    ensures var cut := CutAtLast(p, ':');
      cut.Cut? && p == cut.left + [':'] + cut.right && cut.left != [] && ':' !in cut.left && IsNumber(cut.right)
  {
    CutAtLastParts(p, ':');
    var cut := CutAtLast(p, ':');
    assert forall c | c in cut.left :: c != ':';
  }

  lemma PeerLacks(p: string, c: char)
    requires IsPeer(p) && (c == ',' || c == '|' || c == '\n')
    ensures c !in p && p != []
  {
    CutAtLastParts(p, ':');
    var cut := CutAtLast(p, ':');
    assert p == cut.left + [':'] + cut.right;
  }

  lemma EntryText(p: PeerAttr)
    requires IsPeer(p.peer)
    ensures Entry(p) != [] && ',' !in Entry(p) && '\n' !in Entry(p)
    ensures CutAt(Entry(p), '|') == Cut(p.peer, AttrText(p.attr))
  {
    PeerLacks(p.peer, ',');
    PeerLacks(p.peer, '|');
    PeerLacks(p.peer, '\n');
    assert Entry(p) == p.peer + ['|'] + AttrText(p.attr);
    CutIs(p.peer, AttrText(p.attr), '|');
    if p.attr.max.Some? { DigitsLack(p.attr.max.value, ','); DigitsLack(p.attr.max.value, '\n'); }
  }

  lemma NameLacks(n: string, c: char)
    requires IsName(n) && (c == '=' || c == ':' || c == '\n' || c == '!')
    ensures c !in n && n[0] != '!'
  {
    assert n[0] in n;
  }

  lemma SlotLineText(s: Slots)
    requires IsName(s.name) && forall p | p in s.peers :: IsPeer(p)
    ensures SlotLine(s) != [] && '\n' !in SlotLine(s) && SlotLine(s)[0] != '!'
    ensures CutAt(SlotLine(s), '=') == Cut(s.name, Join(s.peers, ','))
  {
    NameLacks(s.name, '=');
    NameLacks(s.name, '\n');
    assert SlotLine(s) == s.name + ['='] + Join(s.peers, ',');
    assert SlotLine(s)[0] == s.name[0];
    CutIs(s.name, Join(s.peers, ','), '=');
    forall p | p in s.peers ensures '\n' !in p { PeerLacks(p, '\n'); }
    JoinLacks(s.peers, ',', '\n');
  }

  /** The entries of one upstream, in any order. */
  ghost predicate EntriesOf(a: Attrs, es: seq<string>) {
    NoRepeats(es) && forall e :: e in es <==> exists p :: p in a.peers && e == Entry(p)
  }

  lemma AttrLineText(a: Attrs, es: seq<string>)
    requires AttrsOk(a) && EntriesOf(a, es)
    ensures var l := AttrLineOf(a.name, es);
      l != [] && '\n' !in l && l[0] == '!' && CutAt(l[1..], '=') == Cut(a.name, Join(es, ','))
    ensures Pieces(Join(es, ','), ',') == es
  {
    NameLacks(a.name, '=');
    NameLacks(a.name, '\n');
    var l := AttrLineOf(a.name, es);
    assert l[1..] == a.name + ['='] + Join(es, ',');
    CutIs(a.name, Join(es, ','), '=');
    forall e | e in es ensures e != [] && ',' !in e && '\n' !in e {
      var p :| p in a.peers && e == Entry(p);
      EntryText(p);
    }
    JoinLacks(es, ',', '\n');
    PiecesOfJoin(es, ',');
  }

  lemma EntriesDiffer(a: Attrs)
    requires AttrsOk(a)
    ensures EntriesOf(a, Entries(a.peers))
  {
    var es := Entries(a.peers);
    forall i, j | 0 <= i < j < |es| ensures es[i] != es[j] {
      assert a.peers[i] in a.peers && a.peers[j] in a.peers;
      EntryText(a.peers[i]);
      EntryText(a.peers[j]);
    }
    forall e ensures e in es <==> exists p :: p in a.peers && e == Entry(p) {
      if e in es { var i :| 0 <= i < |es| && es[i] == e; assert a.peers[i] in a.peers; }
      if p :| p in a.peers && e == Entry(p) { var i :| 0 <= i < |es| && a.peers[i] == p; assert es[i] == e; }
    }
  }

  lemma ReadLineEntries(a: Attrs)
    requires AttrsOk(a)
    ensures EntriesOf(a, SortText(Entries(a.peers)))
  {
    EntriesDiffer(a);
    SortTextMembers(Entries(a.peers));
  }

  lemma ByPeerIsOrder()
    ensures TotalPreorder(ByPeer())
  {
    ByTextIsOrder();
    forall a: PeerAttr, b: PeerAttr ensures ByPeer()(a, b) || ByPeer()(b, a) { assert ByText()(a.peer, b.peer) || ByText()(b.peer, a.peer); }
    forall a: PeerAttr, b: PeerAttr, c: PeerAttr | ByPeer()(a, b) && ByPeer()(b, c) ensures ByPeer()(a, c) {
      assert ByText()(a.peer, b.peer) && ByText()(b.peer, c.peer);
    }
  }

  lemma WriteLineEntries(a: Attrs)
    requires AttrsOk(a)
    ensures EntriesOf(a, Entries(SortBy(a.peers, ByPeer())))
  {
    ByPeerIsOrder();
    SortIsSorted(a.peers, ByPeer());
    var sorted := SortBy(a.peers, ByPeer());
    SameMembers(sorted, a.peers);
    forall i, j | 0 <= i < j < |sorted| ensures sorted[i].peer != sorted[j].peer { PeersStayDistinct(a, sorted, i, j); }
    EntriesDiffer(Attrs(a.name, sorted));
  }

  lemma PeersStayDistinct(a: Attrs, sorted: seq<PeerAttr>, i: nat, j: nat)
    requires AttrsOk(a) && multiset(sorted) == multiset(a.peers) && i < j < |sorted|
    ensures sorted[i].peer != sorted[j].peer
  {
    SameMembers(sorted, a.peers);
    assert sorted[i] in a.peers && sorted[j] in a.peers;
    OnceIfThere(a.peers, sorted[i]);
    if sorted[i] == sorted[j] { TwiceIsTwo(sorted, i, j); }
  }

  // ------------------------------------------------------------------ keys

  lemma SlotKeysDiffer(n: string, m: string, epoch: string)
    requires SlotKey(n, epoch) == SlotKey(m, epoch)
    ensures n == m
  {
    BetweenIs("slot:", n, ":" + epoch);
    BetweenIs("slot:", m, ":" + epoch);
  }

  lemma AttrKeysDiffer(n: string, p: string, m: string, q: string, epoch: string)
    requires IsName(n) && IsName(m) && AttrKey(n, p, epoch) == AttrKey(m, q, epoch)
    ensures n == m && p == q
  {
    BetweenIs("attr:", n + ":" + p, ":" + epoch);
    BetweenIs("attr:", m + ":" + q, ":" + epoch);
    NameLacks(n, ':');
    NameLacks(m, ':');
    CutIs(n, p, ':');
    CutIs(m, q, ':');
  }

  lemma KindsDiffer(n: string, m: string, q: string, epoch: string)
    ensures SlotKey(n, epoch) != AttrKey(m, q, epoch)
  {
    assert SlotKey(n, epoch)[0] == 's' && AttrKey(m, q, epoch)[0] == 'a';
  }

  // ------------------------------------------------------------------ what staging leaves in the dict

  /** The peer and the rest of an entry. */
  function PeerOf(e: string): string { if CutAt(e, '|').Cut? then CutAt(e, '|').left else e }
  function RestOf(e: string): string { if CutAt(e, '|').Cut? then CutAt(e, '|').right else [] }

  /** Entries of pairwise different peers. */
  predicate Apart(es: seq<string>) {
    && (forall e | e in es :: CutAt(e, '|').Cut?)
    && (forall i, j :: 0 <= i < j < |es| ==> PeerOf(es[i]) != PeerOf(es[j]))
  }

  /** `r` is `d` with the entries of one upstream written. */
  ghost predicate WithEntries(d: Dict, r: Dict, name: string, es: seq<string>, epoch: string) {
    && (forall e | e in es :: var k := AttrKey(name, PeerOf(e), epoch); k in r && r[k] == RestOf(e))
    && (forall k | k in r :: (exists e :: e in es && k == AttrKey(name, PeerOf(e), epoch)) || (k in d && d[k] == r[k]))
    && (forall k | k in d :: k in r && (r[k] == d[k] || exists e :: e in es && k == AttrKey(name, PeerOf(e), epoch)))
  }

  /** Staging entries writes exactly them, whatever their order. */
  lemma {:induction false} EntriesStaged(d: Dict, name: string, es: seq<string>, epoch: string)
    requires IsName(name) && Apart(es)
    ensures WithEntries(d, StageEntries(d, name, es, epoch), name, es, epoch)
    decreases |es|
  {
    if es != [] {
      var n := |es| - 1;
      assert es[n] in es;
      assert Apart(es[..n]) by { assert forall e | e in es[..n] :: e in es; }
      EntriesStaged(d, name, es[..n], epoch);
      OneMoreEntry(d, StageEntries(d, name, es[..n], epoch), name, es, epoch);
    }
  }

  lemma OneMoreEntry(d: Dict, r: Dict, name: string, es: seq<string>, epoch: string)
    requires IsName(name) && Apart(es) && es != [] && WithEntries(d, r, name, es[..|es| - 1], epoch)
    ensures var e := es[|es| - 1]; WithEntries(d, r[AttrKey(name, PeerOf(e), epoch) := RestOf(e)], name, es, epoch)
  {
    hide AttrKey, PeerOf, RestOf, IsName;
    var n := |es| - 1;
    var k0 := AttrKey(name, PeerOf(es[n]), epoch);
    var r' := r[k0 := RestOf(es[n])];
    assert forall e :: e in es <==> e in es[..n] || e == es[n];
    forall e | e in es ensures var k := AttrKey(name, PeerOf(e), epoch); k in r' && r'[k] == RestOf(e) {
      if e != es[n] {
        var i :| 0 <= i < n && es[i] == e;
        if AttrKey(name, PeerOf(e), epoch) == k0 { AttrKeysDiffer(name, PeerOf(e), name, PeerOf(es[n]), epoch); }
      }
    }
  }

  lemma EntryOwner(a: Attrs, es: seq<string>, e: string) returns (p: PeerAttr)
    requires AttrsOk(a) && EntriesOf(a, es) && e in es
    ensures p in a.peers && e == Entry(p) && CutAt(e, '|').Cut? && PeerOf(e) == p.peer && RestOf(e) == AttrText(p.attr)
  {
    p :| p in a.peers && e == Entry(p);
    EntryText(p);
  }

  lemma EntriesAreApart(a: Attrs, es: seq<string>)
    requires AttrsOk(a) && EntriesOf(a, es)
    ensures Apart(es)
  {
    hide Entry, PeerOf, RestOf, IsPeer, CutAt;
    forall e | e in es ensures CutAt(e, '|').Cut? {
      var p := EntryOwner(a, es, e);
    }
    forall i, j | 0 <= i < j < |es| ensures PeerOf(es[i]) != PeerOf(es[j]) {
      var p := EntryOwner(a, es, es[i]);
      var q := EntryOwner(a, es, es[j]);
    }
  }

  // ------------------------------------------------------------------ lines and what they write

  /** The keys and values one line writes. */
  function LineMap(line: string, epoch: string): Dict { StageLine(map[], line, epoch) }

  lemma {:induction false} EntriesAdd(d: Dict, name: string, es: seq<string>, epoch: string)
    ensures StageEntries(d, name, es, epoch) == d + StageEntries(map[], name, es, epoch)
    decreases |es|
  {
    if es != [] { EntriesAdd(d, name, es[..|es| - 1], epoch); }
  }

  lemma LineAdds(d: Dict, line: string, epoch: string)
    ensures StageLine(d, line, epoch) == d + LineMap(line, epoch)
  {
    hide CutAt, Pieces, SlotKey;
    if line != [] && line[0] == '!' && CutAt(line[1..], '=').Cut? {
      var cut := CutAt(line[1..], '=');
      EntriesAdd(d, cut.left, Pieces(cut.right, ','), epoch);
    }
  }

  ghost predicate LinesApart(lines: seq<string>, epoch: string) {
    forall i, j, k :: 0 <= i < j < |lines| && k in LineMap(lines[i], epoch) ==> k !in LineMap(lines[j], epoch)
  }

  /** `r` is `d` with all these lines written. */
  ghost predicate WithLines(d: Dict, r: Dict, lines: seq<string>, epoch: string) {
    && (forall l, k | l in lines && k in LineMap(l, epoch) :: k in r && r[k] == LineMap(l, epoch)[k])
    && (forall k | k in r :: (exists l :: l in lines && k in LineMap(l, epoch)) || (k in d && d[k] == r[k]))
    && (forall k | k in d :: k in r)
  }

  lemma {:induction false} LinesStaged(d: Dict, lines: seq<string>, epoch: string)
    requires LinesApart(lines, epoch)
    ensures WithLines(d, StageLines(d, lines, epoch), lines, epoch)
    decreases |lines|
  {
    hide LineMap, StageLine, WithLines, LinesApart;
    if lines != [] {
      var n := |lines| - 1;
      assert LinesApart(lines[..n], epoch) by { FrontApart(lines, epoch); }
      LinesStaged(d, lines[..n], epoch);
      LineAdds(StageLines(d, lines[..n], epoch), lines[n], epoch);
      OneMoreLine(d, StageLines(d, lines[..n], epoch), lines, epoch);
    } else {
      NoLines(d, epoch);
    }
  }

  lemma NoLines(d: Dict, epoch: string)
    ensures WithLines(d, d, [], epoch)
  {
  }

  lemma FrontApart(lines: seq<string>, epoch: string)
    requires LinesApart(lines, epoch) && lines != []
    ensures LinesApart(lines[..|lines| - 1], epoch)
  {
    hide LineMap;
  }

  lemma OneMoreLine(d: Dict, r: Dict, lines: seq<string>, epoch: string)
    requires LinesApart(lines, epoch) && lines != [] && WithLines(d, r, lines[..|lines| - 1], epoch)
    ensures WithLines(d, r + LineMap(lines[|lines| - 1], epoch), lines, epoch)
  {
    hide LineMap;
    var n := |lines| - 1;
    var r' := r + LineMap(lines[n], epoch);
    assert forall l :: l in lines <==> l in lines[..n] || l == lines[n];
    forall l, k | l in lines && k in LineMap(l, epoch) ensures k in r' && r'[k] == LineMap(l, epoch)[k] {
      if l != lines[n] { var i :| 0 <= i < n && lines[i] == l; }
    }
  }

  lemma SlotLineWrites(s: Slots, epoch: string)
    requires IsName(s.name) && forall p | p in s.peers :: IsPeer(p)
    ensures LineMap(SlotLine(s), epoch) == map[SlotKey(s.name, epoch) := Join(s.peers, ',')]
  {
    hide SlotLine, CutAt, Join, SlotKey, IsPeer;
    SlotLineText(s);
  }

  lemma AttrLineWrites(a: Attrs, es: seq<string>, epoch: string)
    requires AttrsOk(a) && EntriesOf(a, es)
    ensures WithEntries(map[], LineMap(AttrLineOf(a.name, es), epoch), a.name, es, epoch)
  {
    hide AttrLineOf, CutAt, Join, Pieces, WithEntries, EntriesOf, Apart;
    AttrLineText(a, es);
    EntriesAreApart(a, es);
    NameOk(a);
    EntriesStaged(map[], a.name, es, epoch);
  }

  lemma NameOk(a: Attrs)
    requires AttrsOk(a)
    ensures IsName(a.name) && a.name != []
  {
  }

  // ------------------------------------------------------------------ the lines of a whole text

  function LineFor(a: Attrs, asRead: bool): string { if asRead then ReadLine(a) else AttrLine(a) }

  function EntriesFor(a: Attrs, asRead: bool): seq<string> {
    if asRead then SortText(Entries(a.peers)) else Entries(SortBy(a.peers, ByPeer()))
  }

  lemma LineForIs(a: Attrs, asRead: bool)
    requires AttrsOk(a)
    ensures LineFor(a, asRead) == AttrLineOf(a.name, EntriesFor(a, asRead)) && EntriesOf(a, EntriesFor(a, asRead))
  {
    hide EntriesOf, SortBy, SortText, Entries;
    ReadLineEntries(a);
    WriteLineEntries(a);
  }

  /** Where a line comes from. */
  datatype Origin = FromSlots(s: Slots) | FromAttrs(a: Attrs)

  ghost predicate Origins(slots: seq<Slots>, attrs: seq<Attrs>, asRead: bool, line: string, o: Origin) {
    match o
    case FromSlots(s) => s in slots && line == SlotLine(s)
    case FromAttrs(a) => a in attrs && a.peers != [] && line == LineFor(a, asRead)
  }

  lemma {:induction false} AttrLinesAre(attrs: seq<Attrs>, asRead: bool, line: string)
    ensures line in AttrLines(attrs, asRead) <==> exists a :: a in attrs && a.peers != [] && line == LineFor(a, asRead)
    decreases |attrs|
  {
    hide ReadLine, AttrLine;
    if attrs != [] {
      AttrLinesAre(attrs[1..], asRead, line);
      assert forall a :: a in attrs <==> a == attrs[0] || a in attrs[1..];
    }
  }

  lemma LinesHaveOrigins(slots: seq<Slots>, attrs: seq<Attrs>, asRead: bool, line: string)
    ensures line in SlotLines(slots) + AttrLines(attrs, asRead) <==> exists o :: Origins(slots, attrs, asRead, line, o)
  {
    hide LineFor, SlotLine;
    AttrLinesAre(attrs, asRead, line);
    if s :| s in slots && line == SlotLine(s) {
      var i :| 0 <= i < |slots| && slots[i] == s;
      assert SlotLines(slots)[i] == line;
      assert Origins(slots, attrs, asRead, line, FromSlots(s));
    }
    if a :| a in attrs && a.peers != [] && line == LineFor(a, asRead) {
      assert Origins(slots, attrs, asRead, line, FromAttrs(a));
    }
    if line in SlotLines(slots) {
      var i :| 0 <= i < |slots| && SlotLines(slots)[i] == line;
      assert slots[i] in slots;
    }
  }

  /** The keys a line writes, by its origin. */
  ghost predicate OriginKey(o: Origin, k: string, epoch: string) {
    match o
    case FromSlots(s) => k == SlotKey(s.name, epoch)
    case FromAttrs(a) => exists p :: p in a.peers && k == AttrKey(a.name, p.peer, epoch)
  }

  lemma OriginWrites(slots: seq<Slots>, attrs: seq<Attrs>, asRead: bool, line: string, o: Origin, epoch: string, k: string)
    requires WellFormed(slots, attrs) && Origins(slots, attrs, asRead, line, o)
    ensures k in LineMap(line, epoch) <==> OriginKey(o, k, epoch)
    ensures o.FromSlots? && k == SlotKey(o.s.name, epoch) ==> LineMap(line, epoch)[k] == Join(o.s.peers, ',')
    ensures o.FromAttrs? ==> forall p | p in o.a.peers && k == AttrKey(o.a.name, p.peer, epoch) :: LineMap(line, epoch)[k] == AttrText(p.attr)
  {
    hide LineMap, SlotLine, SlotKey, AttrKey, LineFor, Join, AttrText, AttrsOk;
    match o
    case FromSlots(s) => SlotLineWrites(s, epoch);
    case FromAttrs(a) => AttrOriginWrites(a, asRead, epoch, k);
  }

  lemma AttrOriginWrites(a: Attrs, asRead: bool, epoch: string, k: string)
    requires AttrsOk(a)
    ensures k in LineMap(LineFor(a, asRead), epoch) <==> exists p :: p in a.peers && k == AttrKey(a.name, p.peer, epoch)
    ensures forall p | p in a.peers && k == AttrKey(a.name, p.peer, epoch) :: LineMap(LineFor(a, asRead), epoch)[k] == AttrText(p.attr)
  {
    hide LineMap, AttrKey, LineFor, AttrText, EntriesFor, AttrsOk, Entry, PeerOf, RestOf;
    var es := EntriesFor(a, asRead);
    LineForIs(a, asRead);
    AttrLineWrites(a, es, epoch);
    forall p | p in a.peers ensures Entry(p) in es && PeerOf(Entry(p)) == p.peer && RestOf(Entry(p)) == AttrText(p.attr) {
      EntryOf(a, p);
    }
    forall e | e in es ensures exists p :: p in a.peers && PeerOf(e) == p.peer { var p := EntryOwner(a, es, e); }
  }

  lemma EntryOf(a: Attrs, p: PeerAttr)
    requires AttrsOk(a) && p in a.peers
    ensures PeerOf(Entry(p)) == p.peer && RestOf(Entry(p)) == AttrText(p.attr)
  {
    EntryText(p);
  }

  // ------------------------------------------------------------------ no two lines meet

  lemma OneOriginPerKey(slots: seq<Slots>, attrs: seq<Attrs>, o: Origin, q: Origin, epoch: string, k: string)
    requires WellFormed(slots, attrs) && OriginKey(o, k, epoch) && OriginKey(q, k, epoch)
    requires (o.FromSlots? ==> o.s in slots) && (o.FromAttrs? ==> o.a in attrs)
    requires (q.FromSlots? ==> q.s in slots) && (q.FromAttrs? ==> q.a in attrs)
    ensures o == q
  {
    hide SlotKey, AttrKey;
    if o.FromSlots? && q.FromSlots? {
      SlotKeysDiffer(o.s.name, q.s.name, epoch);
    } else if o.FromAttrs? && q.FromAttrs? {
      var p :| p in o.a.peers && k == AttrKey(o.a.name, p.peer, epoch);
      var r :| r in q.a.peers && k == AttrKey(q.a.name, r.peer, epoch);
      AttrKeysDiffer(o.a.name, p.peer, q.a.name, r.peer, epoch);
    } else if o.FromSlots? {
      var r :| r in q.a.peers && k == AttrKey(q.a.name, r.peer, epoch);
      KindsDiffer(o.s.name, q.a.name, r.peer, epoch);
    } else {
      var p :| p in o.a.peers && k == AttrKey(o.a.name, p.peer, epoch);
      KindsDiffer(q.s.name, o.a.name, p.peer, epoch);
    }
  }

  function AllLines(slots: seq<Slots>, attrs: seq<Attrs>, asRead: bool): seq<string> {
    SlotLines(slots) + AttrLines(attrs, asRead)
  }

  lemma OriginOf(slots: seq<Slots>, attrs: seq<Attrs>, asRead: bool, line: string) returns (o: Origin)
    requires line in AllLines(slots, attrs, asRead)
    ensures Origins(slots, attrs, asRead, line, o)
    ensures (o.FromSlots? ==> o.s in slots) && (o.FromAttrs? ==> o.a in attrs && o.a.peers != [])
  {
    LinesHaveOrigins(slots, attrs, asRead, line);
    o :| Origins(slots, attrs, asRead, line, o);
  }

  /** Different lines of one text write different keys. */
  lemma SharedKeySameLine(slots: seq<Slots>, attrs: seq<Attrs>, asRead: bool, x: string, y: string, epoch: string, k: string)
    requires WellFormed(slots, attrs) && x in AllLines(slots, attrs, asRead) && y in AllLines(slots, attrs, asRead)
    requires k in LineMap(x, epoch) && k in LineMap(y, epoch)
    ensures x == y
  {
    hide LineMap, AllLines, OriginKey, WellFormed;
    var o := OriginOf(slots, attrs, asRead, x);
    var q := OriginOf(slots, attrs, asRead, y);
    OriginWrites(slots, attrs, asRead, x, o, epoch, k);
    OriginWrites(slots, attrs, asRead, y, q, epoch, k);
    OneOriginPerKey(slots, attrs, o, q, epoch, k);
  }

  lemma {:induction false} AttrLinesOnce(attrs: seq<Attrs>, asRead: bool)
    requires WellFormed([], attrs)
    ensures NoRepeats(AttrLines(attrs, asRead))
    decreases |attrs|
  {
    hide LineFor;
    if attrs != [] {
      var a, rest := attrs[0], AttrLines(attrs[1..], asRead);
      assert forall b | b in attrs[1..] :: b in attrs;
      AttrLinesOnce(attrs[1..], asRead);
      if a.peers != [] {
        forall b | b in attrs[1..] && b.peers != [] ensures LineFor(b, asRead) != LineFor(a, asRead) {
          assert b in attrs && a in attrs;
          var i :| 1 <= i < |attrs| && attrs[i] == b;
          LineNames(a, b, asRead);
        }
        AttrLinesAre(attrs[1..], asRead, LineFor(a, asRead));
        HeadOnce(LineFor(a, asRead), rest);
        AttrLinesStep(attrs, asRead);
      } else {
        AttrLinesStep(attrs, asRead);
      }
    }
  }

  lemma AttrLinesStep(attrs: seq<Attrs>, asRead: bool)
    requires attrs != []
    ensures AttrLines(attrs, asRead) ==
      (if attrs[0].peers == [] then [] else [LineFor(attrs[0], asRead)]) + AttrLines(attrs[1..], asRead)
  {
  }

  lemma HeadOnce(x: string, rest: seq<string>)
    requires NoRepeats(rest) && x !in rest
    ensures NoRepeats([x] + rest)
  {
  }

  lemma LineNames(a: Attrs, b: Attrs, asRead: bool)
    requires AttrsOk(a) && AttrsOk(b) && a.name != b.name
    ensures LineFor(a, asRead) != LineFor(b, asRead)
  {
    hide EntriesFor, AttrLineOf, CutAt, LineFor;
    LineForIs(a, asRead);
    LineForIs(b, asRead);
    AttrLineText(a, EntriesFor(a, asRead));
    AttrLineText(b, EntriesFor(b, asRead));
  }

  lemma LinesOnce(slots: seq<Slots>, attrs: seq<Attrs>, asRead: bool)
    requires WellFormed(slots, attrs)
    ensures NoRepeats(AllLines(slots, attrs, asRead))
  {
    hide SlotLine, AttrLines;
    var x, y := SlotLines(slots), AttrLines(attrs, asRead);
    AttrLinesOnce(attrs, asRead);
    forall i, j | 0 <= i < j < |x| ensures x[i] != x[j] {
      assert slots[i] in slots && slots[j] in slots;
      SlotLineText(slots[i]);
      SlotLineText(slots[j]);
    }
    forall i, j | 0 <= i < |x| && 0 <= j < |y| ensures x[i] != y[j] {
      assert slots[i] in slots && y[j] in y;
      SlotLineText(slots[i]);
      AttrLinesAre(attrs, asRead, y[j]);
      var a :| a in attrs && a.peers != [] && y[j] == LineFor(a, asRead);
      LineForIs(a, asRead);
      AttrLineText(a, EntriesFor(a, asRead));
    }
  }

  // ------------------------------------------------------------------ staging a text

  /** The dict afterwards: every slot list and every attribute under its key, the rest untouched. */
  ghost predicate HoldsExactly(d: Dict, r: Dict, slots: seq<Slots>, attrs: seq<Attrs>, epoch: string) {
    && (forall s | s in slots :: SlotKey(s.name, epoch) in r && r[SlotKey(s.name, epoch)] == Join(s.peers, ','))
    && (forall a, p | a in attrs && p in a.peers :: AttrKey(a.name, p.peer, epoch) in r && r[AttrKey(a.name, p.peer, epoch)] == AttrText(p.attr))
    && (forall k | k in r :: IsSent(slots, attrs, epoch, k) || (k in d && d[k] == r[k]))
    && (forall k | k in d :: k in r)
  }

  ghost predicate IsSent(slots: seq<Slots>, attrs: seq<Attrs>, epoch: string, k: string) {
    || (exists s :: s in slots && k == SlotKey(s.name, epoch))
    || (exists a, p :: a in attrs && p in a.peers && k == AttrKey(a.name, p.peer, epoch))
  }

  lemma LineIsClean(slots: seq<Slots>, attrs: seq<Attrs>, asRead: bool, line: string)
    requires WellFormed(slots, attrs) && line in AllLines(slots, attrs, asRead)
    ensures line != [] && '\n' !in line
  {
    hide AllLines, SlotLine, LineFor, EntriesFor, AttrLineOf, CutAt;
    var o := OriginOf(slots, attrs, asRead, line);
    match o
    case FromSlots(s) => SlotLineText(s);
    case FromAttrs(a) => LineForIs(a, asRead); AttrLineText(a, EntriesFor(a, asRead));
  }

  lemma TextStages(d: Dict, slots: seq<Slots>, attrs: seq<Attrs>, asRead: bool, epoch: string)
    requires WellFormed(slots, attrs)
    ensures WithLines(d, Stage(d, TextOf(slots, attrs, asRead), epoch), SortText(AllLines(slots, attrs, asRead)), epoch)
  {
    hide WellFormed, WithLines, SortText, Join, Pieces, StageLines, LineMap;
    var lines := AllLines(slots, attrs, asRead);
    LinesOnce(slots, attrs, asRead);
    SortTextMembers(lines);
    var sorted := SortText(lines);
    forall x | x in sorted ensures x != [] && '\n' !in x { LineIsClean(slots, attrs, asRead, x); }
    PiecesOfJoin(sorted, '\n');
    forall i, j, k | 0 <= i < j < |sorted| && k in LineMap(sorted[i], epoch) ensures k !in LineMap(sorted[j], epoch) {
      if k in LineMap(sorted[j], epoch) { SharedKeySameLine(slots, attrs, asRead, sorted[i], sorted[j], epoch, k); }
    }
    LinesStaged(d, sorted, epoch);
  }

  /** Staging writes exactly what was sent, whichever of the two orders the text has. */
  lemma StagingIsExact(d: Dict, slots: seq<Slots>, attrs: seq<Attrs>, asRead: bool, epoch: string)
    requires WellFormed(slots, attrs)
    ensures HoldsExactly(d, Stage(d, TextOf(slots, attrs, asRead), epoch), slots, attrs, epoch)
  {
    hide Stage, TextOf, AllLines, LineMap, SlotKey, AttrKey, Join, AttrText, WellFormed, SortText;
    var r, lines := Stage(d, TextOf(slots, attrs, asRead), epoch), AllLines(slots, attrs, asRead);
    TextStages(d, slots, attrs, asRead, epoch);
    SortTextMembers(lines);
    forall s | s in slots ensures SlotKey(s.name, epoch) in r && r[SlotKey(s.name, epoch)] == Join(s.peers, ',') {
      SlotIsThere(slots, attrs, asRead, s, epoch);
    }
    forall a, p | a in attrs && p in a.peers
      ensures AttrKey(a.name, p.peer, epoch) in r && r[AttrKey(a.name, p.peer, epoch)] == AttrText(p.attr)
    {
      AttrIsThere(slots, attrs, asRead, a, p, epoch);
    }
    forall k | k in r ensures IsSent(slots, attrs, epoch, k) || (k in d && d[k] == r[k]) {
      if l :| l in lines && k in LineMap(l, epoch) { KeyIsSent(slots, attrs, asRead, l, epoch, k); }
    }
  }

  lemma SlotIsThere(slots: seq<Slots>, attrs: seq<Attrs>, asRead: bool, s: Slots, epoch: string)
    requires WellFormed(slots, attrs) && s in slots
    ensures var l, k := SlotLine(s), SlotKey(s.name, epoch);
      l in AllLines(slots, attrs, asRead) && k in LineMap(l, epoch) && LineMap(l, epoch)[k] == Join(s.peers, ',')
  {
    hide LineMap, SlotLine, SlotKey, Join, AllLines;
    assert Origins(slots, attrs, asRead, SlotLine(s), FromSlots(s));
    LinesAll(slots, attrs, asRead);
    LinesHaveOrigins(slots, attrs, asRead, SlotLine(s));
    OriginWrites(slots, attrs, asRead, SlotLine(s), FromSlots(s), epoch, SlotKey(s.name, epoch));
  }

  lemma LinesAll(slots: seq<Slots>, attrs: seq<Attrs>, asRead: bool)
    ensures AllLines(slots, attrs, asRead) == SlotLines(slots) + AttrLines(attrs, asRead)
  {
  }

  lemma AttrIsThere(slots: seq<Slots>, attrs: seq<Attrs>, asRead: bool, a: Attrs, p: PeerAttr, epoch: string)
    requires WellFormed(slots, attrs) && a in attrs && p in a.peers
    ensures var l, k := LineFor(a, asRead), AttrKey(a.name, p.peer, epoch);
      l in AllLines(slots, attrs, asRead) && k in LineMap(l, epoch) && LineMap(l, epoch)[k] == AttrText(p.attr)
  {
    hide LineMap, LineFor, AttrKey, AttrText, AllLines;
    assert Origins(slots, attrs, asRead, LineFor(a, asRead), FromAttrs(a));
    LinesAll(slots, attrs, asRead);
    LinesHaveOrigins(slots, attrs, asRead, LineFor(a, asRead));
    OriginWrites(slots, attrs, asRead, LineFor(a, asRead), FromAttrs(a), epoch, AttrKey(a.name, p.peer, epoch));
  }

  lemma KeyIsSent(slots: seq<Slots>, attrs: seq<Attrs>, asRead: bool, l: string, epoch: string, k: string)
    requires WellFormed(slots, attrs) && l in AllLines(slots, attrs, asRead) && k in LineMap(l, epoch)
    ensures IsSent(slots, attrs, epoch, k)
  {
    hide LineMap, AllLines, SlotKey, AttrKey, WellFormed;
    var o := OriginOf(slots, attrs, asRead, l);
    OriginWrites(slots, attrs, asRead, l, o, epoch, k);
    if o.FromAttrs? { var p :| p in o.a.peers && k == AttrKey(o.a.name, p.peer, epoch); }
  }

  /** The dict that results is the same one for both texts. */
  lemma ExactIsUnique(d: Dict, r: Dict, q: Dict, slots: seq<Slots>, attrs: seq<Attrs>, epoch: string)
    requires HoldsExactly(d, r, slots, attrs, epoch) && HoldsExactly(d, q, slots, attrs, epoch)
    ensures r == q
  {
    hide SlotKey, AttrKey, Join, AttrText;
    forall k ensures k in r <==> k in q { SentIsHeld(d, r, slots, attrs, epoch, k); SentIsHeld(d, q, slots, attrs, epoch, k); }
    forall k | k in r ensures r[k] == q[k] {
      if s :| s in slots && k == SlotKey(s.name, epoch) {
      } else if a, p :| a in attrs && p in a.peers && k == AttrKey(a.name, p.peer, epoch) {
      } else {
        assert !IsSent(slots, attrs, epoch, k);
      }
    }
  }

  lemma SentIsHeld(d: Dict, r: Dict, slots: seq<Slots>, attrs: seq<Attrs>, epoch: string, k: string)
    requires HoldsExactly(d, r, slots, attrs, epoch)
    ensures k in r <==> IsSent(slots, attrs, epoch, k) || k in d
  {
    hide SlotKey, AttrKey, Join, AttrText;
  }

  /** Staging the text that was read leaves the dict exactly as staging the text that was written. */
  lemma ReadTextStagesAlike(d: Dict, slots: seq<Slots>, attrs: seq<Attrs>, epoch: string)
    requires WellFormed(slots, attrs)
    ensures Stage(d, TextOf(slots, attrs, true), epoch) == Stage(d, Encode(slots, attrs), epoch)
  {
    hide HoldsExactly, Stage, TextOf, WellFormed;
    StagingIsExact(d, slots, attrs, true, epoch);
    StagingIsExact(d, slots, attrs, false, epoch);
    ExactIsUnique(d, Stage(d, TextOf(slots, attrs, true), epoch), Stage(d, TextOf(slots, attrs, false), epoch), slots, attrs, epoch);
  }

  // ------------------------------------------------------------------ reading back what was staged

  /** The dict holds no key of this epoch. */
  predicate Clean(d: Dict, epoch: string) { forall k | k in d :: !IsOfEpoch(k, epoch) }

  lemma SlotMatches(n: string, epoch: string)
    requires n != []
    ensures SlotMatch(SlotKey(n, epoch), epoch) == Some(n)
  {
    BetweenIs("slot:", n, ":" + epoch);
  }

  lemma AttrMatches(n: string, p: string, epoch: string)
    requires IsName(n) && IsPeer(p)
    ensures AttrMatch(AttrKey(n, p, epoch), epoch) == Some(NamePeer(n, p))
  {
    BetweenIs("attr:", n + ":" + p, ":" + epoch);
    PeerParts(p);
    var cut := CutAtLast(p, ':');
    NumberLacksColon(cut.right);
    assert n + ":" + p == (n + ":" + cut.left) + [':'] + cut.right;
    CutAtLastIs(n + ":" + cut.left, cut.right, ':');
    CutAtLastIs(n, cut.left, ':');
  }

  lemma NumberLacksColon(s: string)
    requires IsNumber(s)
    ensures ':' !in s
  {
  }

  lemma MatchIsOfEpoch(k: string, epoch: string)
    requires SlotMatch(k, epoch).Some? || AttrMatch(k, epoch).Some?
    ensures IsOfEpoch(k, epoch)
    ensures SlotMatch(k, epoch).Some? ==> k[0] == 's'
    ensures AttrMatch(k, epoch).Some? ==> k[0] == 'a'
  {
    var h := if SlotMatch(k, epoch).Some? then "slot:" else "attr:";
    BetweenParts(k, h, ":" + epoch);
    assert k[..5] == h;
    assert k[0] == h[0];
  }

  /** In the staged dict the matching keys are exactly the sent ones. */
  lemma MatchesAreSent(d: Dict, r: Dict, slots: seq<Slots>, attrs: seq<Attrs>, epoch: string, k: string)
    requires WellFormed(slots, attrs) && Clean(d, epoch) && HoldsExactly(d, r, slots, attrs, epoch) && k in r
    ensures SlotMatch(k, epoch).Some? ==> exists s :: s in slots && k == SlotKey(s.name, epoch) && SlotMatch(k, epoch) == Some(s.name)
    ensures AttrMatch(k, epoch).Some? ==>
      exists a, p :: a in attrs && p in a.peers && k == AttrKey(a.name, p.peer, epoch) && AttrMatch(k, epoch) == Some(NamePeer(a.name, p.peer))
  {
    hide SlotMatch, AttrMatch, HoldsExactly, IsOfEpoch, IsPeer, IsName;
    if SlotMatch(k, epoch).Some? || AttrMatch(k, epoch).Some? {
      MatchIsOfEpoch(k, epoch);
      HeldIsSent(d, r, slots, attrs, epoch, k);
      if s :| s in slots && k == SlotKey(s.name, epoch) {
        assert k[0] == 's';
        SlotNameOk(slots, attrs, s);
        SlotMatches(s.name, epoch);
      } else {
        var a, p :| a in attrs && p in a.peers && k == AttrKey(a.name, p.peer, epoch);
        assert k[0] == 'a';
        AttrMatches(a.name, p.peer, epoch);
      }
    }
  }

  lemma SlotNameOk(slots: seq<Slots>, attrs: seq<Attrs>, s: Slots)
    requires WellFormed(slots, attrs) && s in slots
    ensures s.name != []
  {
  }

  lemma HeldIsSent(d: Dict, r: Dict, slots: seq<Slots>, attrs: seq<Attrs>, epoch: string, k: string)
    requires Clean(d, epoch) && HoldsExactly(d, r, slots, attrs, epoch) && k in r && IsOfEpoch(k, epoch)
    ensures IsSent(slots, attrs, epoch, k)
  {
    hide SlotKey, AttrKey, IsOfEpoch, Join, AttrText;
  }

  lemma EntriesAreSent(d: Dict, r: Dict, slots: seq<Slots>, attrs: seq<Attrs>, epoch: string, name: string, e: string)
    requires WellFormed(slots, attrs) && Clean(d, epoch) && HoldsExactly(d, r, slots, attrs, epoch)
    ensures IsEntryOf(r, epoch, name, e) <==> exists a, p :: a in attrs && a.name == name && p in a.peers && e == Entry(p)
  {
    hide SlotKey, AttrKey, AttrMatch, SlotMatch, AttrText, Join, Clean, IsName, IsPeer;
    if IsEntryOf(r, epoch, name, e) {
      var k :| k in r && AttrMatch(k, epoch).Some? && AttrMatch(k, epoch).value.name == name
               && e == AttrMatch(k, epoch).value.peer + "|" + r[k];
      MatchesAreSent(d, r, slots, attrs, epoch, k);
      var a, p :| a in attrs && p in a.peers && k == AttrKey(a.name, p.peer, epoch) && AttrMatch(k, epoch) == Some(NamePeer(a.name, p.peer));
      assert e == Entry(p);
    }
    if a, p :| a in attrs && a.name == name && p in a.peers && e == Entry(p) {
      AttrMatches(a.name, p.peer, epoch);
      assert AttrKey(a.name, p.peer, epoch) in r;
    }
  }

  lemma OwnEntries(d: Dict, r: Dict, slots: seq<Slots>, attrs: seq<Attrs>, epoch: string, a: Attrs)
    requires WellFormed(slots, attrs) && Clean(d, epoch) && HoldsExactly(d, r, slots, attrs, epoch) && a in attrs
    ensures Lists(r, epoch, a.name, Entries(a.peers))
  {
    hide HoldsExactly, IsEntryOf, Entry, Clean;
    EntriesDiffer(a);
    forall e ensures e in Entries(a.peers) <==> IsEntryOf(r, epoch, a.name, e) {
      EntriesAreSent(d, r, slots, attrs, epoch, a.name, e);
      if b, p :| b in attrs && b.name == a.name && p in b.peers && e == Entry(p) { SameNameSameAttrs(slots, attrs, a, b); }
    }
  }

  lemma SameNameSameAttrs(slots: seq<Slots>, attrs: seq<Attrs>, a: Attrs, b: Attrs)
    requires WellFormed(slots, attrs) && a in attrs && b in attrs && a.name == b.name
    ensures a == b
  {
  }

  /** The lines the reader prints are exactly the lines of the reader's text. */
  lemma ReadLinesAre(d: Dict, r: Dict, slots: seq<Slots>, attrs: seq<Attrs>, epoch: string, line: string)
    requires WellFormed(slots, attrs) && Clean(d, epoch) && HoldsExactly(d, r, slots, attrs, epoch)
    ensures line in AllLines(slots, attrs, true) <==> IsReadLine(r, epoch, line)
  {
    hide IsReadLine, AllLines, WellFormed, Clean, HoldsExactly;
    if line in AllLines(slots, attrs, true) {
      var o := OriginOf(slots, attrs, true, line);
      match o
      case FromSlots(s) => SlotLineIsRead(d, r, slots, attrs, epoch, s);
      case FromAttrs(a) => AttrLineIsRead(d, r, slots, attrs, epoch, a);
    }
    if IsReadLine(r, epoch, line) { ReadLineWasSent(d, r, slots, attrs, epoch, line); }
  }

  lemma SlotLineIsRead(d: Dict, r: Dict, slots: seq<Slots>, attrs: seq<Attrs>, epoch: string, s: Slots)
    requires WellFormed(slots, attrs) && HoldsExactly(d, r, slots, attrs, epoch) && s in slots
    ensures IsReadLine(r, epoch, SlotLine(s))
  {
    hide Lists, AttrLineOf, SlotMatch, SlotKey, Join, IsName, IsPeer;
    SlotNameOk(slots, attrs, s);
    SlotMatches(s.name, epoch);
    var k := SlotKey(s.name, epoch);
    assert k in r && SlotMatch(k, epoch) == Some(s.name) && SlotLine(s) == SlotMatch(k, epoch).value + "=" + r[k];
  }

  lemma AttrLineIsRead(d: Dict, r: Dict, slots: seq<Slots>, attrs: seq<Attrs>, epoch: string, a: Attrs)
    requires WellFormed(slots, attrs) && Clean(d, epoch) && HoldsExactly(d, r, slots, attrs, epoch) && a in attrs && a.peers != []
    ensures IsReadLine(r, epoch, ReadLine(a))
  {
    hide SlotMatch, AttrLineOf, HoldsExactly, Clean, WellFormed, Lists, Entry;
    OwnEntries(d, r, slots, attrs, epoch, a);
    var es := Entries(a.peers);
    assert es != [] && Lists(r, epoch, a.name, es) && ReadLine(a) == AttrLineOf(a.name, SortText(es));
  }

  lemma ReadLineWasSent(d: Dict, r: Dict, slots: seq<Slots>, attrs: seq<Attrs>, epoch: string, line: string)
    requires WellFormed(slots, attrs) && Clean(d, epoch) && HoldsExactly(d, r, slots, attrs, epoch) && IsReadLine(r, epoch, line)
    ensures line in AllLines(slots, attrs, true)
  {
    hide SlotMatch, AttrMatch, AttrLineOf, Lists, SlotKey, Clean, WellFormed, HoldsExactly;
    LinesAll(slots, attrs, true);
    LinesHaveOrigins(slots, attrs, true, line);
    if k :| k in r && SlotMatch(k, epoch).Some? && line == SlotMatch(k, epoch).value + "=" + r[k] {
      MatchesAreSent(d, r, slots, attrs, epoch, k);
      var s :| s in slots && k == SlotKey(s.name, epoch) && SlotMatch(k, epoch) == Some(s.name);
      SlotIsHeld(d, r, slots, attrs, epoch, s);
      assert Origins(slots, attrs, true, line, FromSlots(s));
    } else {
      var name, entries :| entries != [] && Lists(r, epoch, name, entries) && line == AttrLineOf(name, SortText(entries));
      var a := ListedAttrs(d, r, slots, attrs, epoch, name, entries);
      assert Origins(slots, attrs, true, line, FromAttrs(a));
    }
  }

  lemma SlotIsHeld(d: Dict, r: Dict, slots: seq<Slots>, attrs: seq<Attrs>, epoch: string, s: Slots)
    requires HoldsExactly(d, r, slots, attrs, epoch) && s in slots
    ensures SlotKey(s.name, epoch) in r && s.name + "=" + r[SlotKey(s.name, epoch)] == SlotLine(s)
  {
    hide SlotKey, AttrKey, Join, AttrText;
  }

  lemma ListedAttrs(d: Dict, r: Dict, slots: seq<Slots>, attrs: seq<Attrs>, epoch: string, name: string, entries: seq<string>) returns (a: Attrs)
    requires WellFormed(slots, attrs) && Clean(d, epoch) && HoldsExactly(d, r, slots, attrs, epoch)
    requires entries != [] && Lists(r, epoch, name, entries)
    ensures a in attrs && a.peers != [] && AttrLineOf(name, SortText(entries)) == LineFor(a, true)
  {
    hide HoldsExactly, IsEntryOf, Entry, Clean, WellFormed, AttrLineOf, SortText;
    assert entries[0] in entries;
    EntriesAreSent(d, r, slots, attrs, epoch, name, entries[0]);
    var p: PeerAttr;
    a, p :| a in attrs && a.name == name && p in a.peers && entries[0] == Entry(p);
    OwnEntries(d, r, slots, attrs, epoch, a);
    SameMembersSortAlike(entries, Entries(a.peers));
  }

  /**
   * The wire round trip: reading back an epoch that was staged into a dict without keys of that
   * epoch prints the reader's text of the same content.
   */
  lemma RoundTrip(d: Dict, slots: seq<Slots>, attrs: seq<Attrs>, epoch: string)
    requires WellFormed(slots, attrs) && Clean(d, epoch)
    ensures IsReadOf(Stage(d, Encode(slots, attrs), epoch), epoch, TextOf(slots, attrs, true))
  {
    hide Stage, Clean, WellFormed, IsReadLine, HoldsExactly, SortText, Join;
    var r, lines := Stage(d, Encode(slots, attrs), epoch), AllLines(slots, attrs, true);
    StagingIsExact(d, slots, attrs, false, epoch);
    LinesOnce(slots, attrs, true);
    forall x ensures x in lines <==> IsReadLine(r, epoch, x) { ReadLinesAre(d, r, slots, attrs, epoch, x); }
    LinesAll(slots, attrs, true);
  }

  // ------------------------------------------------------------------ retiring an epoch

  /** A key of any epoch is removed exactly when it is of the retired one; other kinds of keys never are. */
  lemma RemovesExactly(n: string, p: string, other: string, epoch: string)
    requires IsNumber(other) && IsNumber(epoch)
    ensures IsOfEpoch(SlotKey(n, other), epoch) <==> other == epoch
    ensures IsOfEpoch(AttrKey(n, p, other), epoch) <==> other == epoch
    ensures !IsOfEpoch("in:" + p, epoch) && !IsOfEpoch("rr:" + n, epoch)
  {
    assert SlotKey(n, other)[..5] == "slot:" && AttrKey(n, p, other)[..5] == "attr:";
    SuffixTellsEpoch("slot:" + n, other, epoch);
    SuffixTellsEpoch("attr:" + (n + ":" + p), other, epoch);
    assert ("in:" + p)[0] == 'i' && ("rr:" + n)[0] == 'r';
  }

  lemma SuffixTellsEpoch(front: string, other: string, epoch: string)
    requires IsNumber(other) && IsNumber(epoch)
    ensures EndsWith(front + (":" + other), ":" + epoch) <==> other == epoch
  {
    NumberLacksColon(other);
    NumberLacksColon(epoch);
    var k := front + (":" + other);
    if EndsWith(k, ":" + epoch) {
      var front' := k[..|k| - |epoch| - 1];
      assert k == front' + [':'] + epoch;
      assert k == front + [':'] + other;
      CutAtLastIs(front', epoch, ':');
      CutAtLastIs(front, other, ':');
    }
  }

  /** Staging an epoch and retiring it again leaves the dict as it was. */
  lemma StageThenRemove(d: Dict, slots: seq<Slots>, attrs: seq<Attrs>, epoch: string)
    requires WellFormed(slots, attrs) && Clean(d, epoch) && IsNumber(epoch)
    ensures Removed(Stage(d, Encode(slots, attrs), epoch), epoch) == d
  {
    hide Stage, Encode, WellFormed, Clean, IsOfEpoch, HoldsExactly;
    StagingIsExact(d, slots, attrs, false, epoch);
    var r := Stage(d, TextOf(slots, attrs, false), epoch);
    EncodeIs(slots, attrs);
    forall k ensures k in Removed(r, epoch) <==> k in d {
      SentIsHeld(d, r, slots, attrs, epoch, k);
      CleanKey(d, epoch, k);
      if IsSent(slots, attrs, epoch, k) { SentIsOfEpoch(slots, attrs, epoch, k); }
    }
    forall k | k in d ensures r[k] == d[k] {
      CleanKey(d, epoch, k);
      SentIsHeld(d, r, slots, attrs, epoch, k);
      UntouchedKey(d, r, slots, attrs, epoch, k);
    }
  }

  lemma EncodeIs(slots: seq<Slots>, attrs: seq<Attrs>)
    ensures Encode(slots, attrs) == TextOf(slots, attrs, false)
  {
  }

  lemma CleanKey(d: Dict, epoch: string, k: string)
    requires Clean(d, epoch)
    ensures k in d ==> !IsOfEpoch(k, epoch)
  {
  }

  lemma SentIsOfEpoch(slots: seq<Slots>, attrs: seq<Attrs>, epoch: string, k: string)
    requires IsSent(slots, attrs, epoch, k) && IsNumber(epoch)
    ensures IsOfEpoch(k, epoch)
  {
    hide IsOfEpoch, SlotKey, AttrKey;
    if s :| s in slots && k == SlotKey(s.name, epoch) { RemovesExactly(s.name, "", epoch, epoch); }
    else {
      var a, p :| a in attrs && p in a.peers && k == AttrKey(a.name, p.peer, epoch);
      RemovesExactly(a.name, p.peer, epoch, epoch);
    }
  }

  lemma UntouchedKey(d: Dict, r: Dict, slots: seq<Slots>, attrs: seq<Attrs>, epoch: string, k: string)
    requires HoldsExactly(d, r, slots, attrs, epoch) && k in d && !IsOfEpoch(k, epoch) && IsNumber(epoch)
    ensures k in r && r[k] == d[k]
  {
    hide SlotKey, AttrKey, IsOfEpoch, Join, AttrText;
    if IsSent(slots, attrs, epoch, k) { SentIsOfEpoch(slots, attrs, epoch, k); }
  }

  // ------------------------------------------------------------------ when the two texts are equal

  /** Some peer of the upstream is a proper prefix of another (10.0.0.1:8 and 10.0.0.1:80). */
  ghost predicate Nested(a: Attrs) {
    exists p, q :: p in a.peers && q in a.peers && p.peer < q.peer
  }

  lemma {:induction false} FirstDifference(a: string, b: string, x: string, y: string)
    requires StringLe(a, b) && !(a <= b)
    ensures StringLe(a + x, b + y)
    decreases |a|
  {
    if a[0] == b[0] {
      assert (a + x)[1..] == a[1..] + x && (b + y)[1..] == b[1..] + y;
      PrefixTail(a, b);
      FirstDifference(a[1..], b[1..], x, y);
    }
  }

  lemma PrefixTail(a: string, b: string)
    requires a != [] && b != [] && a[0] == b[0]
    ensures a <= b <==> a[1..] <= b[1..]
  {
    assert a == [a[0]] + a[1..] && b == [b[0]] + b[1..];
  }

  lemma {:induction false} CommonFront(z: string, x: string, y: string)
    ensures StringLe(z + x, z + y) <==> StringLe(x, y)
    decreases |z|
  {
    if z == [] {
      assert z + x == x && z + y == y;
    } else {
      assert (z + x)[1..] == z[1..] + x && (z + y)[1..] == z[1..] + y;
      CommonFront(z[1..], x, y);
    }
  }

  lemma {:induction false} PrefixFirst(a: string, b: string)
    requires a <= b
    ensures StringLe(a, b)
    decreases |a|
  {
    if a != [] {
      assert a[1..] <= b[1..];
      PrefixFirst(a[1..], b[1..]);
    }
  }

  /** What follows a peer inside a longer peer is more of the port. */
  lemma LongerPort(p: string, q: string)
    requires IsPeer(p) && IsPeer(q) && p < q
    ensures IsDigit(q[|p|])
  {
    PeerParts(p);
    PeerParts(q);
    var a, b, rest := CutAtLast(p, ':'), CutAtLast(q, ':'), q[|p|..];
    assert q == p + rest;
    assert q == a.left + [':'] + (a.right + rest);
    CutIs(a.left, a.right + rest, ':');
    CutIs(b.left, b.right, ':');
    assert b.right[|a.right|] == rest[0];
    assert rest[0] in b.right;
  }

  /** Sorting by peer puts the shorter peer first, sorting the finished entries puts it last. */
  lemma NestedEntriesSwap(p: PeerAttr, q: PeerAttr)
    requires IsPeer(p.peer) && IsPeer(q.peer) && p.peer < q.peer
    ensures StringLe(p.peer, q.peer) && !StringLe(q.peer, p.peer)
    ensures !StringLe(Entry(p), Entry(q))
  {
    PrefixFirst(p.peer, q.peer);
    if StringLe(q.peer, p.peer) { LeAntisymmetric(p.peer, q.peer); }
    LongerPort(p.peer, q.peer);
    var rest := q.peer[|p.peer|..];
    assert Entry(q) == p.peer + (rest + "|" + AttrText(q.attr)) by { assert q.peer == p.peer + rest; }
    assert Entry(p) == p.peer + ("|" + AttrText(p.attr));
    CommonFront(p.peer, "|" + AttrText(p.attr), rest + "|" + AttrText(q.attr));
  }

  lemma SortedPeersAre(a: Attrs)
    requires AttrsOk(a)
    ensures var s := SortBy(a.peers, ByPeer());
      SortedBy(s, ByPeer()) && multiset(s) == multiset(a.peers) && forall p :: p in s <==> p in a.peers
  {
    ByPeerIsOrder();
    SortIsSorted(a.peers, ByPeer());
    SameMembers(SortBy(a.peers, ByPeer()), a.peers);
  }

  lemma ApartSortsAlike(a: Attrs)
    requires AttrsOk(a) && !Nested(a)
    ensures Entries(SortBy(a.peers, ByPeer())) == SortText(Entries(a.peers))
  {
    hide IsPeer, Entry;
    var s := SortBy(a.peers, ByPeer());
    SortedPeersAre(a);
    var es := Entries(s);
    forall i, j | 0 <= i < j < |es| ensures ByText()(es[i], es[j]) {
      assert s[i] in s && s[j] in s;
      assert ByPeer()(s[i], s[j]);
      if s[i].peer == s[j].peer { PeersStayDistinct(a, s, i, j); }
      EntriesKeepOrder(s[i], s[j]);
    }
    WriteLineEntries(a);
    EntriesDiffer(a);
    SortTextMembers(Entries(a.peers));
    SameMembersSortAlike(es, Entries(a.peers));
    ByTextIsOrder();
    SortIsSorted(es, ByText());
    SortedIsUnique(es, SortText(es), ByText());
  }

  lemma EntriesKeepOrder(p: PeerAttr, q: PeerAttr)
    requires StringLe(p.peer, q.peer) && !(p.peer <= q.peer)
    ensures StringLe(Entry(p), Entry(q))
  {
    FirstDifference(p.peer, q.peer, "|" + AttrText(p.attr), "|" + AttrText(q.attr));
    assert Entry(p) == p.peer + ("|" + AttrText(p.attr)) && Entry(q) == q.peer + ("|" + AttrText(q.attr));
  }

  lemma NestedSortsApart(a: Attrs)
    requires AttrsOk(a) && Nested(a)
    ensures Entries(SortBy(a.peers, ByPeer())) != SortText(Entries(a.peers))
  {
    hide IsPeer, Entry, SortBy, SortText, StringLe;
    var p, q :| p in a.peers && q in a.peers && p.peer < q.peer;
    var s := SortBy(a.peers, ByPeer());
    SortedPeersAre(a);
    NestedEntriesSwap(p, q);
    var i :| 0 <= i < |s| && s[i] == p;
    var j :| 0 <= j < |s| && s[j] == q;
    ShorterStandsFirst(s, i, j);
    SortTextMembers(Entries(a.peers));
    if Entries(s) == SortText(Entries(a.peers)) { NotInOrder(Entries(s), i, j); }
  }

  lemma ShorterStandsFirst(s: seq<PeerAttr>, i: nat, j: nat)
    requires SortedBy(s, ByPeer()) && i < |s| && j < |s| && s[i] != s[j] && !StringLe(s[j].peer, s[i].peer)
    ensures i < j
  {
    hide StringLe;
    if j < i { BeforeByPeer(s, j, i); }
  }

  lemma BeforeByPeer(s: seq<PeerAttr>, i: nat, j: nat)
    requires SortedBy(s, ByPeer()) && i < j < |s|
    ensures StringLe(s[i].peer, s[j].peer)
  {
    hide StringLe;
    assert ByPeer()(s[i], s[j]);
  }

  lemma NotInOrder(es: seq<string>, i: nat, j: nat)
    requires SortedBy(es, ByText()) && i < j < |es|
    ensures StringLe(es[i], es[j])
  {
    assert ByText()(es[i], es[j]);
  }

  /** One attribute line is written as it is read exactly when no peer is a proper prefix of another. */
  lemma LineOrders(a: Attrs)
    requires AttrsOk(a)
    ensures AttrLine(a) == ReadLine(a) <==> !Nested(a)
  {
    hide AttrsOk, EntriesFor, AttrLineOf, Nested, Entries, SortText, SortBy, CutAt, Join;
    LineForIs(a, true);
    LineForIs(a, false);
    AttrLineText(a, EntriesFor(a, true));
    AttrLineText(a, EntriesFor(a, false));
    EntriesForAre(a);
    if Nested(a) { NestedSortsApart(a); } else { ApartSortsAlike(a); }
  }

  lemma EntriesForAre(a: Attrs)
    ensures EntriesFor(a, true) == SortText(Entries(a.peers)) && EntriesFor(a, false) == Entries(SortBy(a.peers, ByPeer()))
    ensures LineFor(a, true) == ReadLine(a) && LineFor(a, false) == AttrLine(a)
  {
  }

  /** The text that is read back equals the text that was written exactly when no upstream has nested peers. */
  lemma TextsAreEqualExactly(slots: seq<Slots>, attrs: seq<Attrs>)
    requires WellFormed(slots, attrs)
    ensures TextOf(slots, attrs, true) == Encode(slots, attrs) <==> forall a | a in attrs :: !Nested(a)
  {
    hide WellFormed, Nested, SlotLines, SortText, Join, AllLines, AttrLines;
    LinesAll(slots, attrs, true);
    LinesAll(slots, attrs, false);
    if forall a | a in attrs :: !Nested(a) {
      SameAttrLines(slots, attrs);
    } else {
      var a :| a in attrs && Nested(a);
      if TextOf(slots, attrs, true) == Encode(slots, attrs) { NestedLineIsMissing(slots, attrs, a); SameTextSameLines(slots, attrs, AttrLine(a)); }
    }
  }

  lemma {:induction false} SameAttrLines(slots: seq<Slots>, attrs: seq<Attrs>)
    requires WellFormed(slots, attrs) && forall a | a in attrs :: !Nested(a)
    ensures AttrLines(attrs, true) == AttrLines(attrs, false)
    decreases |attrs|
  {
    hide Nested, AttrsOk, LineFor;
    if attrs != [] {
      assert attrs[0] in attrs;
      LineOrders(attrs[0]);
      EntriesForAre(attrs[0]);
      assert forall b | b in attrs[1..] :: b in attrs;
      SameAttrLines(slots, attrs[1..]);
      AttrLinesStep(attrs, true);
      AttrLinesStep(attrs, false);
    }
  }

  lemma SameTextSameLines(slots: seq<Slots>, attrs: seq<Attrs>, x: string)
    requires WellFormed(slots, attrs) && TextOf(slots, attrs, true) == TextOf(slots, attrs, false)
    ensures x in AllLines(slots, attrs, true) <==> x in AllLines(slots, attrs, false)
  {
    hide WellFormed, SortText, Join, Pieces, AllLines;
    var a, b := AllLines(slots, attrs, true), AllLines(slots, attrs, false);
    LinesAll(slots, attrs, true);
    LinesAll(slots, attrs, false);
    SortTextMembers(a);
    SortTextMembers(b);
    forall y | y in SortText(a) ensures y != [] && '\n' !in y { LineIsClean(slots, attrs, true, y); }
    forall y | y in SortText(b) ensures y != [] && '\n' !in y { LineIsClean(slots, attrs, false, y); }
    PiecesOfJoin(SortText(a), '\n');
    PiecesOfJoin(SortText(b), '\n');
  }

  lemma NestedLineIsMissing(slots: seq<Slots>, attrs: seq<Attrs>, a: Attrs)
    requires WellFormed(slots, attrs) && a in attrs && Nested(a)
    ensures AttrLine(a) in AllLines(slots, attrs, false) && AttrLine(a) !in AllLines(slots, attrs, true)
  {
    hide AllLines, LineFor, AttrLine, ReadLine, SlotLine, EntriesFor, AttrLineOf, CutAt, AttrsOk;
    EntriesForAre(a);
    LinesAll(slots, attrs, false);
    assert a.peers != [];
    assert Origins(slots, attrs, false, AttrLine(a), FromAttrs(a));
    LinesHaveOrigins(slots, attrs, false, AttrLine(a));
    LineForIs(a, false);
    AttrLineText(a, EntriesFor(a, false));
    if AttrLine(a) in AllLines(slots, attrs, true) {
      var o := OriginOf(slots, attrs, true, AttrLine(a));
      match o
      case FromSlots(s) => SlotLineText(s);
      case FromAttrs(b) =>
        LineForIs(b, true);
        AttrLineText(b, EntriesFor(b, true));
        SameNameSameAttrs(slots, attrs, a, b);
        LineOrders(a);
    }
  }

  // ------------------------------------------------------------------ the admin endpoint as it runs

  datatype Reply = NoEpoch | Staged | Gone(count: nat)

  /** `location = /membership`: one shared dict, changed key by key. */
  class AdminDict {
    var data: Dict

    constructor ()
      ensures data == map[]
    {
      data := map[];
    }

    /** The entries of one attribute line. */
    method StageList(name: string, list: string, epoch: string)
      modifies this
      ensures data == StageEntries(old(data), name, Pieces(list, ','), epoch)
    {
      var entries, i := Pieces(list, ','), 0;
      while i < |entries|
        invariant 0 <= i <= |entries| && data == StageEntries(old(data), name, entries[..i], epoch)
      {
        assert entries[..i + 1][..i] == entries[..i];
        var cut := CutAt(entries[i], '|');
        if cut.Cut? { data := data[AttrKey(name, cut.left, epoch) := cut.right]; }
        i := i + 1;
      }
      assert entries[..i] == entries;
    }

    /** The lines of one body: `!` lines are attributes, the others slots; anything else is skipped. */
    method StageBody(body: string, epoch: string)
      modifies this
      ensures data == Stage(old(data), body, epoch)
    {
      var lines, i := Pieces(body, '\n'), 0;
      while i < |lines|
        invariant 0 <= i <= |lines| && data == StageLines(old(data), lines[..i], epoch)
      {
        assert lines[..i + 1][..i] == lines[..i];
        var line := lines[i];
        if line != [] && line[0] == '!' {
          var cut := CutAt(line[1..], '=');
          if cut.Cut? && cut.left != [] { StageList(cut.left, cut.right, epoch); }
        } else {
          var cut := CutAt(line, '=');
          if cut.Cut? && cut.left != [] { data := data[SlotKey(cut.left, epoch) := cut.right]; }
        }
        i := i + 1;
      }
      assert lines[..i] == lines;
    }

    /** Retire an epoch: walk over the keys in whatever order the dict lists them. */
    method RemoveEpoch(epoch: string) returns (count: nat)
      modifies this
      ensures data == Removed(old(data), epoch) && count == |old(data)| - |data|
    {
      var rest := data.Keys;
      count := 0;
      while rest != {}
        invariant rest <= old(data).Keys
        invariant forall k | k in old(data) :: k in data <==> k in rest || !IsOfEpoch(k, epoch)
        invariant forall k | k in data :: k in old(data) && data[k] == old(data)[k]
        invariant rest <= data.Keys && count + |data| == |old(data)|
        decreases rest
      {
        var k :| k in rest;
        rest := rest - {k};
        if IsOfEpoch(k, epoch) {
          OneKeyLess(data, k);
          data := data - {k};
          count := count + 1;
        }
      }
    }

    method Post(body: string, epoch: string, remove: bool) returns (reply: Reply)
      modifies this
      ensures epoch == "" ==> reply == NoEpoch && data == old(data)
      ensures epoch != "" && remove ==> data == Removed(old(data), epoch) && reply.Gone? && reply.count + |data| == |old(data)|
      ensures epoch != "" && !remove ==> data == Stage(old(data), body, epoch) && reply == Staged
    {
      if epoch == "" { return NoEpoch; }
      if remove {
        var n := RemoveEpoch(epoch);
        return Gone(n);
      }
      StageBody(body, epoch);
      return Staged;
    }
  }

  lemma OneKeyLess(d: Dict, k: string)
    requires k in d
    ensures |d - {k}| == |d| - 1
  {
    assert (d - {k}).Keys == d.Keys - {k};
    assert |(d - {k}).Keys| == |d - {k}| && |d.Keys| == |d|;
  }
}
