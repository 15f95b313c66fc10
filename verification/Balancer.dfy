/**
 * The peer choice of one balancer call and over the retries of one request: the Lua that
 * `membershipUpstream` and `pickExpression` emit (src/conf/render.ts).
 *
 * A peer is a `host:port` string that is only compared.
 */
module Balancer {
  import opened Wrappers
  import opened Rotation

  type Peer = string

  datatype PeerAttr = PeerAttr(cap: Option<nat>, backup: bool)

  /** What one call reads from the shared dict. */
  datatype Dict = Dict(slot: seq<Peer>, attrs: map<Peer, PeerAttr>, inflight: map<Peer, int>, turns: nat)

  /** `hash` covers source_ip_hash too: both take a checksum modulo the list. */
  datatype Algorithm = RoundRobin | LeastConn | Hash(checksum: nat)

  // ------------------------------------------------------------------ the candidates

  function Keep(s: seq<Peer>, wanted: Peer -> bool): seq<Peer> {
    if s == [] then []
    else Keep(s[..|s| - 1], wanted) + if wanted(s[|s| - 1]) then [s[|s| - 1]] else []
  }

  lemma {:induction false} KeepIs(s: seq<Peer>, wanted: Peer -> bool, p: Peer)
    ensures p in Keep(s, wanted) <==> p in s && wanted(p)
    decreases |s|
  {
    if s != [] {
      KeepIs(s[..|s| - 1], wanted, p);
      assert s == s[..|s| - 1] + [s[|s| - 1]];
    }
  }

  predicate IsBackup(d: Dict, p: Peer) { p in d.attrs && d.attrs[p].backup }

  function InFlight(d: Dict, p: Peer): int { if p in d.inflight then d.inflight[p] else 0 }

  /** Below its soft limit, or without one. */
  predicate HasRoom(d: Dict, p: Peer) {
    p in d.attrs && d.attrs[p].cap.Some? ==> InFlight(d, p) < d.attrs[p].cap.value
  }

  function NotIn(tried: set<Peer>): Peer -> bool { (p: Peer) => p !in tried }
  function IsPrimary(d: Dict): Peer -> bool { (p: Peer) => !IsBackup(d, p) }
  function IsRoomy(d: Dict): Peer -> bool { (p: Peer) => HasRoom(d, p) }
  function Carries(d: Dict, n: int): Peer -> bool { (p: Peer) => InFlight(d, p) == n }

  /** The peers this request has not tried yet. */
  function Untried(d: Dict, tried: set<Peer>): seq<Peer> { Keep(d.slot, NotIn(tried)) }

  /** The primaries; without one the backups. */
  function Tier(d: Dict, tried: set<Peer>): seq<Peer> {
    var list := Untried(d, tried);
    var primary := Keep(list, IsPrimary(d));
    if primary != [] then primary else list
  }

  /** Those with room; when nobody has any, the limit is ignored. */
  function Candidates(d: Dict, tried: set<Peer>): seq<Peer> {
    var tier := Tier(d, tried);
    var under := Keep(tier, IsRoomy(d));
    if under != [] then under else tier
  }

  // ------------------------------------------------------------------ one choice

  datatype Choice = Refused | Chosen(peer: Peer, turns: nat)

  /** The smallest count among the candidates. */
  function Least(d: Dict, list: seq<Peer>): (r: int)
    requires list != []
    ensures forall p | p in list :: r <= InFlight(d, p)
    ensures exists p :: p in list && InFlight(d, p) == r
  {
    var n := |list| - 1;
    assert list == list[..n] + [list[n]];
    if n == 0 then InFlight(d, list[0])
    else
      var best := Least(d, list[..n]);
      var c := InFlight(d, list[n]);
      if c < best then c else best
  }

  /** `rr:` is shared by all workers and counts up atomically; when it cannot, its value is taken as 1. */
  function Turn(d: Dict, counts: bool): nat { if counts then d.turns + 1 else 1 }

  function Pick(d: Dict, tried: set<Peer>, how: Algorithm, counts: bool): Choice {
    var list := Candidates(d, tried);
    if list == [] then Refused
    else
      var turns := if counts && !how.Hash? then d.turns + 1 else d.turns;
      match how
      case Hash(checksum) => Chosen(At(list, checksum), turns)
      case RoundRobin => Chosen(At(list, Turn(d, counts)), turns)
      case LeastConn =>
        var best := Least(d, list);
        var tied := Keep(list, Carries(d, best));
        if tied == [] then Refused else Chosen(At(tied, Turn(d, counts)), turns)
  }

  lemma UntriedIs(d: Dict, tried: set<Peer>, p: Peer)
    ensures p in Untried(d, tried) <==> p in d.slot && p !in tried
  {
    KeepIs(d.slot, NotIn(tried), p);
  }

  lemma TierIs(d: Dict, tried: set<Peer>, p: Peer)
    requires p in Tier(d, tried)
    ensures p in d.slot && p !in tried
    ensures IsBackup(d, p) ==> forall q | q in d.slot && !IsBackup(d, q) :: q in tried
  {
    var list := Untried(d, tried);
    var primary := Keep(list, IsPrimary(d));
    UntriedIs(d, tried, p);
    KeepIs(list, IsPrimary(d), p);
    if IsBackup(d, p) {
      forall q | q in d.slot && !IsBackup(d, q) ensures q in tried {
        UntriedIs(d, tried, q);
        KeepIs(list, IsPrimary(d), q);
      }
    }
  }

  lemma CandidateIs(d: Dict, tried: set<Peer>, p: Peer)
    requires p in Candidates(d, tried)
    ensures p in Tier(d, tried)
    ensures !HasRoom(d, p) ==> forall q | q in Tier(d, tried) :: !HasRoom(d, q)
  {
    var tier := Tier(d, tried);
    KeepIs(tier, IsRoomy(d), p);
    if !HasRoom(d, p) {
      forall q | q in tier ensures !HasRoom(d, q) { KeepIs(tier, IsRoomy(d), q); }
    }
  }

  lemma PickIsCandidate(d: Dict, tried: set<Peer>, how: Algorithm, counts: bool)
    requires Pick(d, tried, how, counts).Chosen?
    ensures Pick(d, tried, how, counts).peer in Candidates(d, tried)
  {
    hide At, Keep;
    var list := Candidates(d, tried);
    if how.LeastConn? {
      var best := Least(d, list);
      var tied := Keep(list, Carries(d, best));
      KeepIs(list, Carries(d, best), Pick(d, tried, how, counts).peer);
    }
  }

  // ------------------------------------------------------------------ what a choice guarantees

  /** A choice is made exactly when the slot still holds an untried peer. */
  lemma PickSucceedsExactly(d: Dict, tried: set<Peer>, how: Algorithm, counts: bool)
    ensures Pick(d, tried, how, counts).Chosen? <==> exists p :: p in d.slot && p !in tried
  {
    hide At, Keep;
    var list := Candidates(d, tried);
    if p :| p in d.slot && p !in tried {
      UntriedIs(d, tried, p);
      if how.LeastConn? {
        var best := Least(d, list);
        var q :| q in list && InFlight(d, q) == best;
        KeepIs(list, Carries(d, best), q);
      }
    }
    if list != [] {
      CandidateIs(d, tried, list[0]);
      TierIs(d, tried, list[0]);
    }
  }

  /** It is an untried peer of the slot; a backup only when every primary was tried; one without room only when the whole tier has none. */
  lemma PickIsFair(d: Dict, tried: set<Peer>, how: Algorithm, counts: bool)
    requires Pick(d, tried, how, counts).Chosen?
    ensures var p := Pick(d, tried, how, counts).peer;
      && p in d.slot && p !in tried
      && (IsBackup(d, p) ==> forall q | q in d.slot && !IsBackup(d, q) :: q in tried)
      && (!HasRoom(d, p) ==> forall q | q in Tier(d, tried) :: !HasRoom(d, q))
  {
    hide At, Keep;
    var p := Pick(d, tried, how, counts).peer;
    PickIsCandidate(d, tried, how, counts);
    CandidateIs(d, tried, p);
    TierIs(d, tried, p);
  }

  /** `least_conn` takes a candidate nobody undercuts. */
  lemma LeastConnIsLeast(d: Dict, tried: set<Peer>, counts: bool)
    requires Pick(d, tried, LeastConn, counts).Chosen?
    ensures var p := Pick(d, tried, LeastConn, counts).peer;
      forall q | q in Candidates(d, tried) ::
        (if p in d.inflight then d.inflight[p] else 0) <= (if q in d.inflight then d.inflight[q] else 0)
  {
    hide At, Keep;
    var list := Candidates(d, tried);
    var best := Least(d, list);
    var p := Pick(d, tried, LeastConn, counts).peer;
    KeepIs(list, Carries(d, best), p);
    forall q | q in list ensures InFlight(d, p) <= InFlight(d, q) { }
  }

  // ------------------------------------------------------------------ which candidate is taken

  /** The least loaded candidates, in their order. */
  function Tied(d: Dict, tried: set<Peer>): seq<Peer> {
    var list := Candidates(d, tried);
    if list == [] then [] else Keep(list, Carries(d, Least(d, list)))
  }

  lemma TiedIs(d: Dict, tried: set<Peer>)
    requires Candidates(d, tried) != []
    ensures Tied(d, tried) != []
    ensures forall p :: p in Tied(d, tried) <==>
      p in Candidates(d, tried) && forall q | q in Candidates(d, tried) :: InFlight(d, p) <= InFlight(d, q)
  {
    hide Keep;
    var list := Candidates(d, tried);
    var best := Least(d, list);
    var q :| q in list && InFlight(d, q) == best;
    KeepIs(list, Carries(d, best), q);
    forall p
      ensures p in Tied(d, tried) <==> p in list && forall q | q in list :: InFlight(d, p) <= InFlight(d, q)
    {
      KeepIs(list, Carries(d, best), p);
    }
  }

  /** What the counter turns round: all candidates, or with `least_conn` those that carry least. */
  function Wheel(d: Dict, how: Algorithm): seq<Peer> {
    if how.LeastConn? then Tied(d, {}) else Candidates(d, {})
  }

  /** Successive first tries of fresh requests: each finds the counter as the one before left it. */
  predicate InTurn(ds: seq<Dict>, how: Algorithm) {
    forall i :: 0 <= i < |ds| - 1 ==>
      Pick(ds[i], {}, how, true).Chosen? && ds[i + 1].turns == Pick(ds[i], {}, how, true).turns
  }

  /** The peers they get. */
  function Served(ds: seq<Dict>, how: Algorithm): (r: seq<Peer>)
    requires forall d | d in ds :: Pick(d, {}, how, true).Chosen?
    ensures |r| == |ds|
  {
    seq(|ds|, i requires 0 <= i < |ds| => (assert ds[i] in ds; Pick(ds[i], {}, how, true).peer))
  }

  /**
   * Over as many fresh requests as the wheel has entries, whatever else happens to the dict in
   * between, every entry of the wheel is taken exactly once: each candidate by the slots it has with
   * round robin, each of the least loaded with `least_conn`.
   */
  lemma TurnsAreFair(ds: seq<Dict>, how: Algorithm, wheel: seq<Peer>)
    requires !how.Hash? && wheel != [] && |ds| == |wheel| && InTurn(ds, how)
    requires forall d | d in ds :: Wheel(d, how) == wheel
    ensures forall d | d in ds :: Pick(d, {}, how, true).Chosen?
    ensures multiset(Served(ds, how)) == multiset(wheel)
  {
    hide Keep, Least, Candidates, Window, At;
    forall i | 0 <= i < |ds|
      ensures Pick(ds[i], {}, how, true) == Chosen(At(wheel, ds[i].turns + 1), ds[i].turns + 1)
    {
      assert ds[i] in ds;
      TakesWheel(ds[i], how);
    }
    CountsOn(ds, how, wheel);
    WindowIsFair(wheel, ds[0].turns + 1);
    assert Served(ds, how) == Window(wheel, ds[0].turns + 1, |wheel|);
  }

  lemma TakesWheel(d: Dict, how: Algorithm)
    requires !how.Hash? && Wheel(d, how) != []
    ensures Pick(d, {}, how, true) == Chosen(At(Wheel(d, how), d.turns + 1), d.turns + 1)
    ensures Pick(d, {}, how, false) == Chosen(At(Wheel(d, how), 1), d.turns)
  {
    hide Keep, Least, At;
  }

  /** On a fresh counter three free peers are taken from the second on; a counter that cannot count sticks to the second. */
  lemma FirstTurns(d: Dict, a: Peer, b: Peer, c: Peer)
    requires d.slot == [a, b, c] && AllFree(d) && d.turns == 0
    ensures Pick(d, {}, RoundRobin, true) == Chosen(b, 1) && Pick(d, {}, RoundRobin, false) == Chosen(b, 0)
    ensures Pick(d.(turns := 1), {}, RoundRobin, true) == Chosen(c, 2)
    ensures Pick(d.(turns := 2), {}, RoundRobin, true) == Chosen(a, 3)
    ensures Pick(d, {}, Hash(4), true) == Chosen(b, 0)
  {
    hide Keep, Least, Candidates;
    FreeSlotIsWheel(d);
    FreeSlotIsWheel(d.(turns := 1));
    FreeSlotIsWheel(d.(turns := 2));
  }

  lemma {:induction false} CountsOn(ds: seq<Dict>, how: Algorithm, wheel: seq<Peer>)
    requires wheel != [] && InTurn(ds, how) && ds != []
    requires forall i :: 0 <= i < |ds| ==> Pick(ds[i], {}, how, true) == Chosen(At(wheel, ds[i].turns + 1), ds[i].turns + 1)
    ensures forall i :: 0 <= i < |ds| ==> ds[i].turns == ds[0].turns + i
    decreases |ds|
  {
    hide Pick, At;
    var n := |ds| - 1;
    if n > 0 {
      CountsOn(ds[..n], how, wheel);
      forall i | 0 <= i < n ensures ds[i].turns == ds[0].turns + i { assert ds[..n][i] == ds[i]; }
      assert ds[n - 1 + 1].turns == Pick(ds[n - 1], {}, how, true).turns;
    }
  }

  /** Everybody is a primary and has room. */
  predicate AllFree(d: Dict) { forall p | p in d.slot :: !IsBackup(d, p) && HasRoom(d, p) }

  /** Then a fresh request chooses among the whole slot. */
  lemma FreeSlotIsWheel(d: Dict)
    requires AllFree(d)
    ensures Candidates(d, {}) == d.slot
  {
    hide Keep;
    KeepsAll(d.slot, NotIn({}));
    KeepsAll(d.slot, IsPrimary(d));
    KeepsAll(d.slot, IsRoomy(d));
  }

  lemma {:induction false} KeepsAll(s: seq<Peer>, wanted: Peer -> bool)
    requires forall p | p in s :: wanted(p)
    ensures Keep(s, wanted) == s
    decreases |s|
  {
    if s != [] {
      assert s == s[..|s| - 1] + [s[|s| - 1]];
      KeepsAll(s[..|s| - 1], wanted);
    }
  }

  /** While everybody is free, round robin serves the slot exactly: each peer as often as it has slots. */
  lemma RoundRobinServesSlot(ds: seq<Dict>, slot: seq<Peer>)
    requires slot != [] && |ds| == |slot| && InTurn(ds, RoundRobin)
    requires forall d | d in ds :: d.slot == slot && AllFree(d)
    ensures forall d | d in ds :: Pick(d, {}, RoundRobin, true).Chosen?
    ensures multiset(Served(ds, RoundRobin)) == multiset(slot)
  {
    hide Pick, Candidates, AllFree, Served;
    forall d | d in ds ensures Wheel(d, RoundRobin) == slot { FreeSlotIsWheel(d); }
    TurnsAreFair(ds, RoundRobin, slot);
  }

  /** The peers a checksum and those after it lead to. */
  function Hashed(d: Dict, tried: set<Peer>, checksum: nat, n: nat): (r: seq<Peer>)
    requires Candidates(d, tried) != []
    ensures |r| == n
  {
    seq(n, i requires 0 <= i < n => Pick(d, tried, Hash(checksum + i), true).peer)
  }

  /**
   * The same key keeps its peer while the candidates stay, checksums one list length apart agree,
   * and consecutive checksums reach every position of the list once; the counter is not touched.
   */
  lemma HashCoversCandidates(d: Dict, tried: set<Peer>, checksum: nat, counts: bool)
    requires Candidates(d, tried) != []
    ensures var n := |Candidates(d, tried)|;
      && Pick(d, tried, Hash(checksum), counts).Chosen? && Pick(d, tried, Hash(checksum), counts).turns == d.turns
      && Pick(d, tried, Hash(checksum + n), counts) == Pick(d, tried, Hash(checksum), counts)
      && multiset(Hashed(d, tried, checksum, n)) == multiset(Candidates(d, tried))
  {
    hide Candidates, At, Window;
    var list := Candidates(d, tried);
    ComesRound(list, checksum);
    WindowIsFair(list, checksum);
    forall i | 0 <= i < |list| ensures Hashed(d, tried, checksum, |list|)[i] == Window(list, checksum, |list|)[i] {
      assert Pick(d, tried, Hash(checksum + i), true).peer == At(list, checksum + i);
    }
    assert Hashed(d, tried, checksum, |list|) == Window(list, checksum, |list|);
  }

  lemma HashIgnoresTheRest(d: Dict, e: Dict, tried: set<Peer>, checksum: nat, counts: bool)
    requires Candidates(d, tried) == Candidates(e, tried) != []
    ensures Pick(d, tried, Hash(checksum), counts).peer == Pick(e, tried, Hash(checksum), counts).peer
  {
    hide Candidates, At;
  }

  // ------------------------------------------------------------------ the retries of one request

  /** One call of the balancer block. */
  datatype Call = Call(dict: Dict, how: Algorithm, counts: bool)

  /** The peers chosen by successive calls of one request, whatever the dict holds at each of them. */
  function Picks(calls: seq<Call>): seq<Peer> {
    if calls == [] then []
    else
      var before := Picks(calls[..|calls| - 1]);
      var c := calls[|calls| - 1];
      match Pick(c.dict, Tried(before), c.how, c.counts)
      case Refused => before
      case Chosen(p, _) => before + [p]
  }

  function Tried(chosen: seq<Peer>): set<Peer> { set p | p in chosen }

  /** Retries never go back to a peer that was tried, even if slot, attributes and load change in between. */
  lemma {:induction false} RetriesAreDistinct(calls: seq<Call>)
    ensures forall i, j :: 0 <= i < j < |Picks(calls)| ==> Picks(calls)[i] != Picks(calls)[j]
    decreases |calls|
  {
    if calls != [] {
      RetriesAreDistinct(calls[..|calls| - 1]);
      var before := Picks(calls[..|calls| - 1]);
      var c := calls[|calls| - 1];
      if Pick(c.dict, Tried(before), c.how, c.counts).Chosen? { PickIsFair(c.dict, Tried(before), c.how, c.counts); }
    }
  }

  /** `set_more_tries(#all - 1)`: as many calls as the slot has entries. */
  predicate SameSlot(calls: seq<Call>, slot: seq<Peer>) {
    forall c | c in calls :: c.dict.slot == slot
  }

  lemma {:induction false} PicksComeFromSlot(calls: seq<Call>, slot: seq<Peer>)
    requires SameSlot(calls, slot)
    ensures forall p | p in Picks(calls) :: p in slot
    decreases |calls|
  {
    if calls != [] {
      var c := calls[|calls| - 1];
      assert c in calls;
      assert forall k | k in calls[..|calls| - 1] :: k in calls;
      PicksComeFromSlot(calls[..|calls| - 1], slot);
      var before := Picks(calls[..|calls| - 1]);
      if Pick(c.dict, Tried(before), c.how, c.counts).Chosen? { PickIsFair(c.dict, Tried(before), c.how, c.counts); }
    }
  }

  /** While the slot stays the same, as many tries as it has different peers reach every one of them. */
  lemma {:induction false} EveryPeerIsReached(calls: seq<Call>, slot: seq<Peer>)
    requires SameSlot(calls, slot)
    ensures |Picks(calls)| == if |calls| <= |Tried(slot)| then |calls| else |Tried(slot)|
    ensures |calls| >= |Tried(slot)| ==> Tried(Picks(calls)) == Tried(slot)
    decreases |calls|
  {
    RetriesAreDistinct(calls);
    DistinctTried(Picks(calls));
    PicksComeFromSlot(calls, slot);
    if calls != [] {
      var front, c := calls[..|calls| - 1], calls[|calls| - 1];
      assert c in calls;
      assert forall k | k in front :: k in calls;
      EveryPeerIsReached(front, slot);
      RetriesAreDistinct(front);
      DistinctTried(Picks(front));
      PicksComeFromSlot(front, slot);
      PickSucceedsExactly(c.dict, Tried(Picks(front)), c.how, c.counts);
      Leftover(Tried(Picks(front)), Tried(slot));
    }
    if |calls| >= |Tried(slot)| { Leftover(Tried(Picks(calls)), Tried(slot)); }
  }

  lemma {:induction false} DistinctTried(s: seq<Peer>)
    requires forall i, j :: 0 <= i < j < |s| ==> s[i] != s[j]
    ensures |Tried(s)| == |s|
    decreases |s|
  {
    if s == [] {
      assert Tried(s) == {};
    } else {
      var n := |s| - 1;
      DistinctTried(s[..n]);
      assert s[n] !in Tried(s[..n]);
      assert Tried(s) == Tried(s[..n]) + {s[n]};
    }
  }

  /** A part of a set that is as large is all of it; a smaller part leaves something. */
  lemma Leftover(a: set<Peer>, b: set<Peer>)
    requires a <= b
    ensures |a| <= |b|
    ensures |a| == |b| <==> a == b
    ensures |a| < |b| ==> exists p :: p in b && p !in a
  {
    assert |b| == |b - a| + |a|;
    if a != b { var p :| p in b && p !in a; assert p in b - a; }
  }

  // ------------------------------------------------------------------ the block as it runs

  /** The shared dict. */
  class Shared {
    var slot: seq<Peer>
    var attrs: map<Peer, PeerAttr>
    var inflight: map<Peer, int>
    var turns: nat

    function Now(): Dict
      reads this
    {
      Dict(slot, attrs, inflight, turns)
    }
  }

  lemma KeepOneMore(s: seq<Peer>, i: nat, wanted: Peer -> bool)
    requires i < |s|
    ensures Keep(s[..i + 1], wanted) == Keep(s[..i], wanted) + if wanted(s[i]) then [s[i]] else []
  {
    assert s[..i + 1][..i] == s[..i];
  }

  /** One filtering loop of the block. */
  method Filter(s: seq<Peer>, wanted: Peer -> bool) returns (kept: seq<Peer>)
    ensures kept == Keep(s, wanted)
  {
    var i := 0;
    kept := [];
    while i < |s|
      invariant 0 <= i <= |s| && kept == Keep(s[..i], wanted)
    {
      KeepOneMore(s, i, wanted);
      if wanted(s[i]) { kept := kept + [s[i]]; }
      i := i + 1;
    }
    assert s[..i] == s;
  }

  /** `ngx.ctx` of one request. */
  class Context {
    var tried: set<Peer>
    var chosen: seq<Peer>

    ghost predicate Valid()
      reads this
    {
      tried == Tried(chosen)
    }

    constructor ()
      ensures Valid() && chosen == []
    {
      tried, chosen := {}, [];
    }

    /** The smallest count among the candidates, found in one walk. */
    method ScanLeast(d: Shared, list: seq<Peer>) returns (best: int)
      requires list != []
      ensures best == Least(d.Now(), list)
    {
      hide InFlight;
      best := InFlight(d.Now(), list[0]);
      var i := 1;
      while i < |list|
        invariant 1 <= i <= |list| && best == Least(d.Now(), list[..i])
      {
        assert list[..i + 1][..i] == list[..i];
        var c := InFlight(d.Now(), list[i]);
        if c < best { best := c; }
        i := i + 1;
      }
      assert list[..i] == list;
    }

    /** Narrow the candidates down, then let the algorithm pick. */
    method Choose(d: Shared, how: Algorithm, counts: bool) returns (choice: Choice)
      ensures choice == Pick(d.Now(), tried, how, counts)
    {
      hide At, Keep, Least, InFlight, HasRoom, IsBackup;
      var list := Filter(d.slot, NotIn(tried));
      var primary := Filter(list, IsPrimary(d.Now()));
      if primary != [] { list := primary; }
      var under := Filter(list, IsRoomy(d.Now()));
      if under != [] { list := under; }
      if list == [] { return Refused; }
      var turns := if counts && !how.Hash? then d.turns + 1 else d.turns;
      match how {
        case Hash(checksum) => choice := Chosen(At(list, checksum), turns);
        case RoundRobin => choice := Chosen(At(list, Turn(d.Now(), counts)), turns);
        case LeastConn =>
          var best := ScanLeast(d, list);
          var tied := Filter(list, Carries(d.Now(), best));
          choice := if tied == [] then Refused else Chosen(At(tied, Turn(d.Now(), counts)), turns);
      }
    }

    /** The balancer block: choose, remember, count the request in. */
    method Balance(d: Shared, how: Algorithm, counts: bool) returns (choice: Choice)
      requires Valid()
      modifies this, d`turns, d`inflight
      ensures Valid() && choice == Pick(old(d.Now()), old(tried), how, counts)
      ensures choice.Refused? ==> chosen == old(chosen) && d.Now() == old(d.Now())
      ensures choice.Chosen? ==> chosen == old(chosen) + [choice.peer]
      ensures choice.Chosen? ==> d.turns == choice.turns
      ensures choice.Chosen? ==> d.inflight == old(d.inflight)[choice.peer := InFlight(old(d.Now()), choice.peer) + 1]
    {
      hide Pick;
      choice := Choose(d, how, counts);
      if choice.Chosen? {
        var peer := choice.peer;
        d.turns := choice.turns;
        tried := tried + {peer};
        chosen := chosen + [peer];
        d.inflight := d.inflight[peer := InFlight(d.Now(), peer) + 1];
      }
    }
  }
}
