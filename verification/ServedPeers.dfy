/**
 * What the balancer makes of what was staged: the slot and the attributes it reads out of the
 * shared dict are those that were sent (src/control/membership.ts), and over a slot list by
 * weights it serves every peer by its shares (src/conf/render.ts).
 */
module ServedPeers {
  import opened Wrappers
  import opened Text
  import opened Rotation
  import opened Balancer
  import W = MembershipWire
  import S = WeightedSlots

  // ------------------------------------------------------------------ reading an attribute

  function DigitOf(c: char): nat
    requires W.IsDigit(c)
  {
    c as int - '0' as int
  }

  function Value(s: string): nat
    requires forall c | c in s :: W.IsDigit(c)
  {
    if s == [] then 0 else Value(s[..|s| - 1]) * 10 + DigitOf(s[|s| - 1])
  }

  /** `tonumber`, of the texts that can stand there. */
  function ToNumber(s: string): Option<nat> {
    if W.IsNumber(s) then Some(Value(s)) else None
  }

  /** `^([^|]*)|(.*)$`: a limit if there is one, and a backup if anything stands behind the bar. */
  function ReadAttr(text: string): PeerAttr {
    match CutAt(text, '|')
    case NoCut => PeerAttr(None, false)
    case Cut(limit, mark) => PeerAttr(if limit == [] then None else ToNumber(limit), mark != [])
  }

  /** A number is read back as it was written. */
  lemma {:induction false} DigitsRead(n: nat)
    ensures ToNumber(W.Digits(n)) == Some(n)
    decreases n
  {
    var s := W.Digits(n);
    if n >= 10 {
      DigitsRead(n / 10);
      assert s[..|s| - 1] == W.Digits(n / 10);
    } else {
      assert s[..|s| - 1] == [] && Value(s[..|s| - 1]) == 0;
    }
  }

  /** The balancer reads of an attribute exactly what the control plane wrote into it. */
  lemma AttrReads(a: W.Attr)
    ensures ReadAttr(W.AttrText(a)) == PeerAttr(a.max, a.backup)
  {
    var limit := if a.max.Some? then W.Digits(a.max.value) else "";
    var mark := if a.backup then "1" else "";
    if a.max.Some? {
      W.DigitsLack(a.max.value, '|');
      DigitsRead(a.max.value);
    }
    assert W.AttrText(a) == limit + ['|'] + mark;
    CutIs(limit, mark, '|');
  }

  // ------------------------------------------------------------------ reading the dict

  function SlotSeen(d: W.Dict, name: string, epoch: string): seq<Peer> {
    if W.SlotKey(name, epoch) in d then Pieces(d[W.SlotKey(name, epoch)], ',') else []
  }

  function AttrsSeen(d: W.Dict, name: string, epoch: string): map<Peer, PeerAttr> {
    map p | p in SlotSeen(d, name, epoch) && W.AttrKey(name, p, epoch) in d :: ReadAttr(d[W.AttrKey(name, p, epoch)])
  }

  /** What one balancer call of this upstream reads in this epoch, next to its counters. */
  function Seen(d: W.Dict, name: string, epoch: string, inflight: map<Peer, int>, turns: nat): Dict {
    Dict(SlotSeen(d, name, epoch), AttrsSeen(d, name, epoch), inflight, turns)
  }

  /**
   * After staging the balancer sees the slot as it was sent; a peer sent as a backup is one, a peer
   * sent with a limit has room below it only, and a peer without attributes, sent or left over, is
   * an unlimited primary.
   */
  lemma StagedIsSeen(d: W.Dict, slots: seq<W.Slots>, attrs: seq<W.Attrs>, asRead: bool, epoch: string, s: W.Slots, inflight: map<Peer, int>, turns: nat)
    requires W.WellFormed(slots, attrs) && s in slots
    ensures var seen := Seen(W.Stage(d, W.TextOf(slots, attrs, asRead), epoch), s.name, epoch, inflight, turns);
      && seen.slot == s.peers
      && (forall a, p | a in attrs && p in a.peers && a.name == s.name && p.peer in s.peers ::
            && (IsBackup(seen, p.peer) <==> p.attr.backup)
            && (HasRoom(seen, p.peer) <==> (p.attr.max.Some? ==> InFlight(seen, p.peer) < p.attr.max.value)))
      && (forall q | q in s.peers && W.AttrKey(s.name, q, epoch) !in d && Unsent(attrs, s.name, q) ::
            !IsBackup(seen, q) && HasRoom(seen, q))
  {
    hide W.Stage, W.TextOf, W.SlotKey, W.AttrKey, W.AttrText, ReadAttr, W.WellFormed, Pieces, Join;
    var r := W.Stage(d, W.TextOf(slots, attrs, asRead), epoch);
    W.StagingIsExact(d, slots, attrs, asRead, epoch);
    assert r[W.SlotKey(s.name, epoch)] == Join(s.peers, ',');
    PeersRead(slots, attrs, s);
    var seen := Seen(r, s.name, epoch, inflight, turns);
    forall a, p | a in attrs && p in a.peers && a.name == s.name && p.peer in s.peers
      ensures p.peer in seen.attrs && seen.attrs[p.peer] == PeerAttr(p.attr.max, p.attr.backup)
    {
      AttrReads(p.attr);
    }
    forall q | q in s.peers && W.AttrKey(s.name, q, epoch) !in d && Unsent(attrs, s.name, q) ensures q !in seen.attrs {
      UnsentStaysOut(d, r, slots, attrs, s.name, q, epoch);
    }
  }

  /** No attribute of this peer was sent. */
  ghost predicate Unsent(attrs: seq<W.Attrs>, name: string, q: Peer) {
    forall a, p | a in attrs && p in a.peers :: a.name != name || p.peer != q
  }

  lemma PeersRead(slots: seq<W.Slots>, attrs: seq<W.Attrs>, s: W.Slots)
    requires W.WellFormed(slots, attrs) && s in slots
    ensures Pieces(Join(s.peers, ','), ',') == s.peers && W.IsName(s.name)
  {
    forall p | p in s.peers ensures p != [] && ',' !in p { W.PeerLacks(p, ','); }
    PiecesOfJoin(s.peers, ',');
  }

  lemma UnsentStaysOut(d: W.Dict, r: W.Dict, slots: seq<W.Slots>, attrs: seq<W.Attrs>, name: string, q: Peer, epoch: string)
    requires W.WellFormed(slots, attrs) && W.IsName(name) && W.HoldsExactly(d, r, slots, attrs, epoch)
    requires W.AttrKey(name, q, epoch) !in d && Unsent(attrs, name, q)
    ensures W.AttrKey(name, q, epoch) !in r
  {
    hide W.SlotKey, W.AttrKey, W.AttrText;
    var k := W.AttrKey(name, q, epoch);
    if k in r {
      forall s | s in slots ensures k != W.SlotKey(s.name, epoch) { W.KindsDiffer(s.name, name, q, epoch); }
      forall a, p | a in attrs && p in a.peers ensures k != W.AttrKey(a.name, p.peer, epoch) {
        if k == W.AttrKey(a.name, p.peer, epoch) { W.AttrKeysDiffer(name, q, a.name, p.peer, epoch); }
      }
    }
  }

  // ------------------------------------------------------------------ the shares of a pool

  /** The names of a slot list, as the peers they stand for. */
  function Named(list: seq<nat>, peerOf: nat -> Peer): (r: seq<Peer>)
    ensures |r| == |list|
    ensures forall i :: 0 <= i < |list| ==> r[i] == peerOf(list[i])
  {
    seq(|list|, i requires 0 <= i < |list| => peerOf(list[i]))
  }

  ghost predicate TellsApart(peerOf: nat -> Peer) { forall x, y :: peerOf(x) == peerOf(y) ==> x == y }

  lemma {:induction false} NamedCounts(list: seq<nat>, peerOf: nat -> Peer, x: nat)
    requires TellsApart(peerOf)
    ensures multiset(Named(list, peerOf))[peerOf(x)] == multiset(list)[x]
    decreases |list|
  {
    if list == [] {
      assert Named(list, peerOf) == [];
    } else {
      var n := |list| - 1;
      NamedCounts(list[..n], peerOf, x);
      assert list == list[..n] + [list[n]];
      assert Named(list, peerOf) == Named(list[..n], peerOf) + [peerOf(list[n])];
    }
  }

  /**
   * End to end for round robin: while every peer of the weighted slot list is free, as many fresh
   * requests as the list is long are served by each peer exactly as often as it has shares.
   */
  lemma SharesAreServed(peers: seq<S.Peer>, peerOf: nat -> Peer, ds: seq<Dict>, i: nat)
    requires S.DistinctNames(peers) && i < |peers| && TellsApart(peerOf)
    requires |ds| == |S.SlotList(peers)| > 0 && InTurn(ds, RoundRobin)
    requires forall d | d in ds :: d.slot == Named(S.SlotList(peers), peerOf) && AllFree(d)
    ensures forall d | d in ds :: Pick(d, {}, RoundRobin, true).Chosen?
    ensures multiset(Served(ds, RoundRobin))[peerOf(S.Sorted(peers)[i].name)] == S.Shares(S.Sorted(peers))[i]
  {
    hide S.SlotList, S.Shares, S.Sorted, Pick, Served, InTurn, AllFree, TellsApart;
    var list := S.SlotList(peers);
    var name := S.Sorted(peers)[i].name;
    RoundRobinServesSlot(ds, Named(list, peerOf));
    NamedCounts(list, peerOf, name);
    S.ListHoldsTheShares(peers, i);
    assert list[..|list|] == list;
  }
}
