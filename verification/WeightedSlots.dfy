/**
 * The slot list of one pool (`weightedSlots`, src/control/membership.ts): copies of every peer,
 * spread evenly, and what a round-robin walk over it gives each peer.
 *
 * A peer's name is a string the source compares for order and equality only; a number stands for it.
 */
module WeightedSlots {
  import opened Sorting
  import opened Apportion
  import opened Rotation

  datatype Peer = Peer(name: nat, weight: int)

  /** The source treats any weight below one as one. */
  function Weight(w: int): Pos { if w < 1 then 1 else w }

  function Weights(peers: seq<Peer>): (r: seq<Pos>)
    ensures |r| == |peers|
  {
    seq(|peers|, i requires 0 <= i < |peers| => Weight(peers[i].weight))
  }

  predicate DistinctNames(peers: seq<Peer>) {
    forall i, j :: 0 <= i < j < |peers| ==> peers[i].name != peers[j].name
  }

  function ByName(): (Peer, Peer) -> bool { (a: Peer, b: Peer) => a.name <= b.name }

  // ------------------------------------------------------------------ marks

  /** Copy number `k` of a peer with `w` copies; it stands at (k + 1/2) / w. */
  datatype Mark = Mark(peer: nat, k: nat, w: Pos)

  /** The comparison of the positions, cross-multiplied; equal positions go by name. */
  predicate MarkBefore(a: Mark, b: Mark) {
    var x, y := (2 * a.k + 1) * b.w, (2 * b.k + 1) * a.w;
    x < y || (x == y && a.peer <= b.peer)
  }

  function MarkOrder(): (Mark, Mark) -> bool { (a: Mark, b: Mark) => MarkBefore(a, b) }

  /** The copies of one peer. */
  function Copies(peer: nat, w: Pos): (r: seq<Mark>)
    ensures |r| == w
  {
    seq(w, k requires 0 <= k < w => Mark(peer, k, w))
  }

  /** The marks of all peers, peer by peer. */
  function MarksOf(names: seq<nat>, counts: seq<Pos>): seq<Mark>
    requires |names| == |counts|
  {
    if names == [] then []
    else MarksOf(names[..|names| - 1], counts[..|names| - 1]) + Copies(names[|names| - 1], counts[|names| - 1])
  }

  function NamesOf(marks: seq<Mark>): (r: seq<nat>)
    ensures |r| == |marks|
  {
    seq(|marks|, i requires 0 <= i < |marks| => marks[i].peer)
  }

  function Spread(names: seq<nat>, counts: seq<Pos>): seq<nat>
    requires |names| == |counts|
  {
    NamesOf(SortBy(MarksOf(names, counts), MarkOrder()))
  }

  // ------------------------------------------------------------------ the whole list

  function PeerNames(peers: seq<Peer>): (r: seq<nat>)
    ensures |r| == |peers|
  {
    seq(|peers|, i requires 0 <= i < |peers| => peers[i].name)
  }

  /** The slots each of the (sorted) peers gets. */
  function Shares(sorted: seq<Peer>): (r: seq<Pos>)
    ensures |r| == |sorted|
  {
    var c := SlotCounts(Reduced(Weights(sorted)));
    seq(|sorted|, i requires 0 <= i < |sorted| => if c[i] == 0 then 1 else c[i])
  }

  function SlotList(peers: seq<Peer>): seq<nat> {
    var sorted := SortBy(peers, ByName());
    Spread(PeerNames(sorted), Shares(sorted))
  }

  lemma SharesAre(sorted: seq<Peer>, i: nat)
    requires i < |sorted|
    ensures Shares(sorted)[i] == SlotCounts(Reduced(Weights(sorted)))[i]
  {
    hide SlotCounts, Reduced;
    NobodyIsLost(Reduced(Weights(sorted)), i);
  }

  // ------------------------------------------------------------------ the order of the marks

  lemma FractionsChain(x: nat, a: Pos, y: nat, b: Pos, z: nat, c: Pos)
    requires x * b <= y * a && y * c <= z * b
    ensures x * c <= z * a
    ensures x * b < y * a || y * c < z * b ==> x * c < z * a
  {
    assert (x * b) * c <= (y * a) * c by { Apportion.MulGrowsInt2(c, x * b, y * a); }
    assert (y * c) * a <= (z * b) * a by { Apportion.MulGrowsInt2(a, y * c, z * b); }
    assert (x * b) * c == b * (x * c) && (y * a) * c == (y * c) * a && (z * b) * a == b * (z * a);
    if x * c > z * a { Apportion.MulGrowsInt(b, z * a, x * c); }
    if x * b < y * a { Apportion.MulGrowsInt(c, x * b, y * a); }
    if y * c < z * b { Apportion.MulGrowsInt(a, y * c, z * b); }
  }

  lemma MarkBeforeChains(a: Mark, b: Mark, c: Mark)
    requires MarkBefore(a, b) && MarkBefore(b, c)
    ensures MarkBefore(a, c)
  {
    FractionsChain(2 * a.k + 1, a.w, 2 * b.k + 1, b.w, 2 * c.k + 1, c.w);
  }

  lemma MarkOrderIsOrder()
    ensures TotalPreorder(MarkOrder())
  {
    forall a: Mark, b: Mark, c: Mark | MarkOrder()(a, b) && MarkOrder()(b, c) ensures MarkOrder()(a, c) {
      MarkBeforeChains(a, b, c);
    }
  }

  // ------------------------------------------------------------------ which marks there are

  /** A copy of one of the peers. */
  ghost predicate IsCopy(names: seq<nat>, counts: seq<Pos>, x: Mark)
    requires |names| == |counts|
  {
    exists i :: 0 <= i < |names| && names[i] == x.peer && counts[i] == x.w && x.k < x.w
  }

  predicate Distinct(names: seq<nat>) {
    forall i, j :: 0 <= i < j < |names| ==> names[i] != names[j]
  }

  /** Every copy is marked, and marked once. */
  lemma {:induction false} MarksAreCopies(names: seq<nat>, counts: seq<Pos>, x: Mark)
    requires |names| == |counts| && Distinct(names)
    ensures multiset(MarksOf(names, counts))[x] == if IsCopy(names, counts, x) then 1 else 0
    decreases |names|
  {
    if names != [] {
      var n := |names| - 1;
      MarksAreCopies(names[..n], counts[..n], x);
      CopiesOnce(names[n], counts[n], x);
      assert IsCopy(names, counts, x) <==> IsCopy(names[..n], counts[..n], x) || (names[n] == x.peer && counts[n] == x.w && x.k < x.w) by {
        if IsCopy(names[..n], counts[..n], x) {
          var i :| 0 <= i < n && names[..n][i] == x.peer && counts[..n][i] == x.w && x.k < x.w;
          assert names[i] == x.peer;
        }
      }
    }
  }

  lemma CopiesOnce(peer: nat, w: Pos, x: Mark)
    ensures multiset(Copies(peer, w))[x] == if peer == x.peer && w == x.w && x.k < w then 1 else 0
  {
    CopiesUpTo(peer, w, w, x);
    assert Copies(peer, w)[..w] == Copies(peer, w);
  }

  lemma {:induction false} CopiesUpTo(peer: nat, w: Pos, m: nat, x: Mark)
    requires m <= w
    ensures multiset(Copies(peer, w)[..m])[x] == if peer == x.peer && w == x.w && x.k < m then 1 else 0
    decreases m
  {
    if m > 0 {
      CopiesUpTo(peer, w, m - 1, x);
      assert Copies(peer, w)[..m] == Copies(peer, w)[..m - 1] + [Mark(peer, m - 1, w)];
    }
  }

  // ------------------------------------------------------------------ the sorted marks

  /** The marks of a pool, in order. */
  ghost predicate InOrder(ms: seq<Mark>, names: seq<nat>, counts: seq<Pos>)
    requires |names| == |counts|
  {
    && Distinct(names)
    && SortedBy(ms, MarkOrder())
    && (forall x :: multiset(ms)[x] == if IsCopy(names, counts, x) then 1 else 0)
  }

  lemma SpreadInOrder(names: seq<nat>, counts: seq<Pos>)
    requires |names| == |counts| && Distinct(names)
    ensures InOrder(SortBy(MarksOf(names, counts), MarkOrder()), names, counts)
  {
    hide MarkOrder, IsCopy;
    MarkOrderIsOrder();
    SortIsSorted(MarksOf(names, counts), MarkOrder());
    forall x { MarksAreCopies(names, counts, x); }
  }

  /** How often a peer occurs among the first `m`. */
  function Occurs(names: seq<nat>, m: nat, p: nat): nat
    requires m <= |names|
  {
    multiset(names[..m])[p]
  }

  lemma CopyIsThere(ms: seq<Mark>, names: seq<nat>, counts: seq<Pos>, x: Mark)
    requires |names| == |counts| && InOrder(ms, names, counts)
    ensures x in ms <==> IsCopy(names, counts, x)
  {
    assert x in ms <==> x in multiset(ms);
  }

  lemma MarksDistinct(ms: seq<Mark>, names: seq<nat>, counts: seq<Pos>, a: nat, b: nat)
    requires |names| == |counts| && InOrder(ms, names, counts) && a < b < |ms|
    ensures ms[a] != ms[b]
  {
    hide SortedBy, IsCopy;
    if ms[a] == ms[b] { TwiceIsTwo(ms, a, b); }
  }

  /** Among the first `m` marks, a peer's are its lowest copies: exactly as many as it occurs. */
  lemma {:induction false} LowestFirst(ms: seq<Mark>, names: seq<nat>, counts: seq<Pos>, m: nat, x: Mark)
    requires |names| == |counts| && InOrder(ms, names, counts) && m <= |ms| && x in ms
    ensures x in ms[..m] <==> x.k < Occurs(NamesOf(ms), m, x.peer)
    decreases m
  {
    hide InOrder;
    if m > 0 {
      var y := ms[m - 1];
      LowestFirst(ms, names, counts, m - 1, x);
      LowestFirst(ms, names, counts, m - 1, y);
      NextIsTheNextCopy(ms, names, counts, m);
      assert NamesOf(ms)[..m] == NamesOf(ms)[..m - 1] + [y.peer];
      assert ms[..m] == ms[..m - 1] + [y];
      if x.peer == y.peer { SamePeerSameCount(ms, names, counts, x, y); }
    }
  }

  lemma SamePeerSameCount(ms: seq<Mark>, names: seq<nat>, counts: seq<Pos>, x: Mark, y: Mark)
    requires |names| == |counts| && InOrder(ms, names, counts) && x in ms && y in ms && x.peer == y.peer
    ensures x.w == y.w
  {
    CopyIsThere(ms, names, counts, x);
    CopyIsThere(ms, names, counts, y);
    var i :| 0 <= i < |names| && names[i] == x.peer && counts[i] == x.w && x.k < x.w;
    var j :| 0 <= j < |names| && names[j] == y.peer && counts[j] == y.w && y.k < y.w;
    assert i == j;
  }

  /** The mark at place m - 1 is copy number so-many-as-occurred of its peer. */
  lemma {:induction false} NextIsTheNextCopy(ms: seq<Mark>, names: seq<nat>, counts: seq<Pos>, m: nat)
    requires |names| == |counts| && InOrder(ms, names, counts) && 0 < m <= |ms|
    ensures ms[m - 1].k == Occurs(NamesOf(ms), m - 1, ms[m - 1].peer)
    decreases m, 0
  {
    hide InOrder;
    var y, c := ms[m - 1], Occurs(NamesOf(ms), m - 1, ms[m - 1].peer);
    LowestFirst(ms, names, counts, m - 1, y);
    if y in ms[..m - 1] {
      var a :| 0 <= a < m - 1 && ms[..m - 1][a] == y;
      MarksDistinct(ms, names, counts, a, m - 1);
    }
    assert y.k >= c;
    if y.k > c {
      // copy number c stands strictly before y, so it was among the first m - 1
      var z := Mark(y.peer, c, y.w);
      CopyIsThere(ms, names, counts, y);
      LowerCopyIsBefore(ms, names, counts, m - 1, z);
      LowestFirst(ms, names, counts, m - 1, z);
    }
  }

  lemma LowerCopyIsBefore(ms: seq<Mark>, names: seq<nat>, counts: seq<Pos>, at: nat, z: Mark)
    requires |names| == |counts| && InOrder(ms, names, counts) && at < |ms|
    requires z.peer == ms[at].peer && z.w == ms[at].w && z.k < ms[at].k
    ensures z in ms && z in ms[..at]
  {
    hide MarkBefore;
    var y := ms[at];
    CopyIsThere(ms, names, counts, y);
    var i :| 0 <= i < |names| && names[i] == y.peer && counts[i] == y.w && y.k < y.w;
    assert IsCopy(names, counts, z);
    CopyIsThere(ms, names, counts, z);
    var b :| 0 <= b < |ms| && ms[b] == z;
    LowerCopyIsLower(y, z);
    StandsEarlier(ms, at, b);
    assert ms[..at][b] == z;
  }

  lemma LowerCopyIsLower(y: Mark, z: Mark)
    requires y.w == z.w && z.k < y.k
    ensures !MarkBefore(y, z)
  {
    Apportion.MulGrowsInt(z.w, 2 * z.k + 1, 2 * y.k + 1);
  }

  lemma StandsEarlier(ms: seq<Mark>, at: nat, b: nat)
    requires SortedBy(ms, MarkOrder()) && at < |ms| && b < |ms| && !MarkBefore(ms[at], ms[b])
    requires ms[at] != ms[b]
    ensures b < at
  {
    hide MarkBefore;
    if at < b { assert false; }
  }

  // ------------------------------------------------------------------ even spreading

  lemma CopyAt(ms: seq<Mark>, names: seq<nat>, counts: seq<Pos>, i: nat, k: nat)
    requires |names| == |counts| && InOrder(ms, names, counts) && i < |names| && k < counts[i]
    ensures Mark(names[i], k, counts[i]) in ms
  {
    assert IsCopy(names, counts, Mark(names[i], k, counts[i]));
    CopyIsThere(ms, names, counts, Mark(names[i], k, counts[i]));
  }

  /** Each peer occurs as often as it has copies. */
  lemma OccursInAll(ms: seq<Mark>, names: seq<nat>, counts: seq<Pos>, i: nat)
    requires |names| == |counts| && InOrder(ms, names, counts) && i < |names|
    ensures Occurs(NamesOf(ms), |ms|, names[i]) == counts[i]
  {
    hide InOrder;
    var c, w := Occurs(NamesOf(ms), |ms|, names[i]), counts[i];
    assert ms[..|ms|] == ms;
    CopyAt(ms, names, counts, i, OneLess(w));
    LowestFirst(ms, names, counts, |ms|, Mark(names[i], OneLess(w), w));
    NeverTooMany(ms, names, counts, |ms|, i);
  }

  /** No prefix holds more of a peer than its copies. */
  lemma {:induction false} NeverTooMany(ms: seq<Mark>, names: seq<nat>, counts: seq<Pos>, m: nat, i: nat)
    requires |names| == |counts| && InOrder(ms, names, counts) && i < |names| && m <= |ms|
    ensures Occurs(NamesOf(ms), m, names[i]) <= counts[i]
    decreases m
  {
    hide InOrder;
    if m > 0 {
      NeverTooMany(ms, names, counts, m - 1, i);
      var y := ms[m - 1];
      assert NamesOf(ms)[..m] == NamesOf(ms)[..m - 1] + [y.peer];
      if y.peer == names[i] {
        NextIsTheNextCopy(ms, names, counts, m);
        CopyAt(ms, names, counts, i, 0);
        SamePeerSameCount(ms, names, counts, y, Mark(names[i], 0, counts[i]));
        CopyIsThere(ms, names, counts, y);
      }
    }
  }

  /**
   * In every prefix of the list any two peers have occurred in proportion to their copies, to
   * within half a copy of each.
   */
  lemma PrefixIsEven(ms: seq<Mark>, names: seq<nat>, counts: seq<Pos>, m: nat, i: nat, j: nat)
    requires |names| == |counts| && InOrder(ms, names, counts) && i < |names| && j < |names| && m <= |ms|
    ensures var ci, cj := Occurs(NamesOf(ms), m, names[i]), Occurs(NamesOf(ms), m, names[j]);
      2 * (ci * counts[j] - cj * counts[i]) <= counts[i] + counts[j]
  {
    hide InOrder, Occurs;
    var ci, cj, wi, wj := Occurs(NamesOf(ms), m, names[i]), Occurs(NamesOf(ms), m, names[j]), counts[i], counts[j];
    NeverTooMany(ms, names, counts, m, i);
    NeverTooMany(ms, names, counts, m, j);
    if ci > 0 && cj < wj {
      var x, y := Mark(names[i], ci - 1, wi), Mark(names[j], cj, wj);
      CopyAt(ms, names, counts, i, ci - 1);
      CopyAt(ms, names, counts, j, cj);
      LowestFirst(ms, names, counts, m, x);
      LowestFirst(ms, names, counts, m, y);
      InsideBeforeOutside(ms, names, counts, m, x, y);
      EvenArithmetic(ci, wi, cj, wj);
    } else {
      EvenAtTheEnds(ci, wi, cj, wj);
    }
  }

  lemma InPrefix(ms: seq<Mark>, m: nat, b: nat)
    requires b < m <= |ms|
    ensures ms[b] in ms[..m]
  {
    assert ms[..m][b] == ms[b];
  }

  lemma InsideBeforeOutside(ms: seq<Mark>, names: seq<nat>, counts: seq<Pos>, m: nat, x: Mark, y: Mark)
    requires |names| == |counts| && InOrder(ms, names, counts) && m <= |ms| && x in ms[..m] && y in ms && y !in ms[..m]
    ensures (2 * x.k + 1) * y.w <= (2 * y.k + 1) * x.w
  {
    hide IsCopy;
    var a :| 0 <= a < m && ms[..m][a] == x;
    var b: nat :| b < |ms| && ms[b] == y;
    if b < m { InPrefix(ms, m, b); }
    assert MarkOrder()(ms[a], ms[b]);
  }

  lemma EvenArithmetic(ci: nat, wi: Pos, cj: nat, wj: Pos)
    requires ci > 0 && (2 * (ci - 1) + 1) * wj <= (2 * cj + 1) * wi
    ensures 2 * (ci * wj - cj * wi) <= wi + wj
  {
    assert (2 * (ci - 1) + 1) * wj == 2 * (ci * wj) - wj;
    assert (2 * cj + 1) * wi == 2 * (cj * wi) + wi;
  }

  lemma EvenAtTheEnds(ci: nat, wi: Pos, cj: nat, wj: Pos)
    requires ci == 0 || cj >= wj
    requires ci <= wi
    ensures 2 * (ci * wj - cj * wi) <= wi + wj
  {
    if ci == 0 {
      assert ci * wj == 0;
    } else {
      Apportion.MulGrowsInt2(wj, ci, wi);
      Apportion.MulGrowsInt2(wi, wj, cj);
      assert ci * wj <= wi * wj && wj * wi <= cj * wi;
    }
  }

  lemma SpreadIsEven(names: seq<nat>, counts: seq<Pos>, m: nat, i: nat, j: nat)
    requires |names| == |counts| && Distinct(names) && i < |names| && j < |names| && m <= |Spread(names, counts)|
    ensures var list := Spread(names, counts);
      var off := Occurs(list, m, names[i]) * counts[j] - Occurs(list, m, names[j]) * counts[i];
      -(counts[i] + counts[j]) <= 2 * off <= counts[i] + counts[j]
  {
    hide MarkOrder, SortBy, Occurs, InOrder;
    var ms := SortBy(MarksOf(names, counts), MarkOrder());
    SpreadInOrder(names, counts);
    PrefixIsEven(ms, names, counts, m, i, j);
    PrefixIsEven(ms, names, counts, m, j, i);
    BothWays(Occurs(NamesOf(ms), m, names[i]) * counts[j], Occurs(NamesOf(ms), m, names[j]) * counts[i], counts[i], counts[j]);
  }

  lemma BothWays(a: nat, b: nat, wi: nat, wj: nat)
    requires 2 * (a - b) <= wi + wj && 2 * (b - a) <= wj + wi
    ensures -(wi + wj) <= 2 * (a - b) <= wi + wj
  {
  }

  lemma {:induction false} MarksLength(names: seq<nat>, counts: seq<Pos>)
    requires |names| == |counts|
    ensures |MarksOf(names, counts)| == Sum(counts)
    decreases |names|
  {
    if names != [] { MarksLength(names[..|names| - 1], counts[..|names| - 1]); }
  }

  // ------------------------------------------------------------------ theorems about the slot list

  /** The peers of a pool, sorted the way the list uses them. */
  function Sorted(peers: seq<Peer>): (r: seq<Peer>)
    ensures |r| == |peers|
  {
    SortBy(peers, ByName())
  }

  lemma ByNameIsOrder()
    ensures TotalPreorder(ByName())
  {
  }

  lemma SortedPeers(peers: seq<Peer>)
    requires DistinctNames(peers)
    ensures multiset(Sorted(peers)) == multiset(peers) && Distinct(PeerNames(Sorted(peers)))
  {
    ByNameIsOrder();
    SortIsSorted(peers, ByName());
    var s := Sorted(peers);
    forall i, j | 0 <= i < j < |s| ensures s[i].name != s[j].name {
      NamesDiffer(peers, s, i, j);
    }
  }

  lemma NamesDiffer(peers: seq<Peer>, s: seq<Peer>, i: nat, j: nat)
    requires DistinctNames(peers) && multiset(s) == multiset(peers) && i < j < |s|
    ensures s[i].name != s[j].name
  {
    SameMembers(s, peers);
    assert s[i] in peers && s[j] in peers;
    var a: nat :| a < |peers| && peers[a] == s[i];
    var b: nat :| b < |peers| && peers[b] == s[j];
    OnceInDistinct(peers, a);
    if s[i] == s[j] { TwiceIsTwo(s, i, j); }
  }

  lemma OnceInDistinct(peers: seq<Peer>, a: nat)
    requires DistinctNames(peers) && a < |peers|
    ensures multiset(peers)[peers[a]] == 1
  {
    assert peers == peers[..a] + [peers[a]] + peers[a + 1..];
    assert peers[a] !in peers[..a] && peers[a] !in peers[a + 1..];
  }

  /** The order in which the peers are given does not matter. */
  lemma OrderOfInputIsIrrelevant(peers: seq<Peer>, shuffled: seq<Peer>)
    requires DistinctNames(peers) && multiset(shuffled) == multiset(peers)
    ensures SlotList(shuffled) == SlotList(peers)
  {
    ByNameIsOrder();
    SortIsSorted(peers, ByName());
    SortIsSorted(shuffled, ByName());
    forall x, y | x in Sorted(shuffled) && y in Sorted(shuffled) && ByName()(x, y) && ByName()(y, x) ensures x == y {
      SameMembers(Sorted(shuffled), peers);
      assert x in peers && y in peers;
    }
    SortedIsUnique(Sorted(shuffled), Sorted(peers), ByName());
  }

  function ScaledPeers(peers: seq<Peer>, k: Pos): (r: seq<Peer>)
    ensures |r| == |peers|
  {
    seq(|peers|, i requires 0 <= i < |peers| => peers[i].(weight := k * peers[i].weight))
  }

  /** Multiplying all weights by the same factor changes nothing (weights of at least one, as the decoder admits). */
  lemma ScaleIsIrrelevant(peers: seq<Peer>, k: Pos)
    requires forall i :: 0 <= i < |peers| ==> peers[i].weight >= 1
    ensures SlotList(ScaledPeers(peers, k)) == SlotList(peers)
  {
    hide Spread, SlotCounts, Reduced;
    SortScaled(peers, k);
    var s := Sorted(peers);
    SortKeepsWeights(peers);
    assert PeerNames(ScaledPeers(s, k)) == PeerNames(s);
    WeightsScaled(s, k);
    ReducedIgnoresScale(Weights(s), k);
    assert Shares(ScaledPeers(s, k)) == Shares(s);
  }

  lemma WeightsScaled(s: seq<Peer>, k: Pos)
    requires forall i :: 0 <= i < |s| ==> s[i].weight >= 1
    ensures Weights(ScaledPeers(s, k)) == Scale(Weights(s), k)
  {
    forall i | 0 <= i < |s| ensures Weights(ScaledPeers(s, k))[i] == Scale(Weights(s), k)[i] {
      ScaledAt(Weights(s), k, i);
      assert k * s[i].weight >= 1 by { Apportion.MulGrowsInt2(k, 1, s[i].weight); }
    }
  }

  lemma SortKeepsWeights(peers: seq<Peer>)
    requires forall i :: 0 <= i < |peers| ==> peers[i].weight >= 1
    ensures forall i :: 0 <= i < |peers| ==> Sorted(peers)[i].weight >= 1
  {
    ByNameIsOrder();
    SortIsSorted(peers, ByName());
    SameMembers(Sorted(peers), peers);
    forall i | 0 <= i < |peers| ensures Sorted(peers)[i].weight >= 1 { assert Sorted(peers)[i] in peers; }
  }

  lemma {:induction false} InsertScaled(x: Peer, s: seq<Peer>, k: Pos)
    ensures InsertBy(x.(weight := k * x.weight), ScaledPeers(s, k), ByName()) == ScaledPeers(InsertBy(x, s, ByName()), k)
    decreases |s|
  {
    if s != [] {
      assert ScaledPeers(s, k)[1..] == ScaledPeers(s[1..], k);
      InsertScaled(x, s[1..], k);
    }
  }

  lemma {:induction false} SortScaled(peers: seq<Peer>, k: Pos)
    ensures SortBy(ScaledPeers(peers, k), ByName()) == ScaledPeers(SortBy(peers, ByName()), k)
    decreases |peers|
  {
    if peers != [] {
      assert ScaledPeers(peers, k)[1..] == ScaledPeers(peers[1..], k);
      SortScaled(peers[1..], k);
      InsertScaled(peers[0], SortBy(peers[1..], ByName()), k);
    } else {
      assert ScaledPeers(peers, k) == [];
    }
  }

  /** The list holds every peer exactly as often as it has shares; nobody is lost. */
  lemma ListHoldsTheShares(peers: seq<Peer>, i: nat)
    requires DistinctNames(peers) && i < |peers|
    ensures var s := Sorted(peers);
      && |SlotList(peers)| == Sum(Shares(s))
      && Occurs(SlotList(peers), |SlotList(peers)|, s[i].name) == Shares(s)[i] >= 1
  {
    hide SortBy, MarkOrder, Shares, InOrder, MarksOf, Occurs;
    var s := Sorted(peers);
    var names, counts := PeerNames(s), Shares(s);
    SortedPeers(peers);
    var ms := SortBy(MarksOf(names, counts), MarkOrder());
    SpreadInOrder(names, counts);
    OccursInAll(ms, names, counts, i);
    MarksLength(names, counts);
  }

  /** How long the list is, in terms of the reduced weights. */
  lemma ListLengthIs(peers: seq<Peer>)
    requires DistinctNames(peers) && peers != []
    ensures var total := Sum(Reduced(Weights(Sorted(peers))));
      |SlotList(peers)| ==
        if total <= 256 then total
        else if |peers| < 256 then 256
        else |peers|
  {
    hide SlotList, Reduced, SlotCounts, Sum;
    ListHoldsTheShares(peers, 0);
    SharesAreCounts(Sorted(peers));
    ListLength(Reduced(Weights(Sorted(peers))));
  }

  lemma SharesAreCounts(s: seq<Peer>)
    ensures Shares(s) == SlotCounts(Reduced(Weights(s)))
  {
    hide SlotCounts, Reduced, Weights;
    forall i | 0 <= i < |s| ensures Shares(s)[i] == SlotCounts(Reduced(Weights(s)))[i] { SharesAre(s, i); }
  }

  /** A strictly heavier peer never gets fewer slots. */
  lemma HeavierPeerNeverFewer(peers: seq<Peer>, i: nat, j: nat)
    requires i < |peers| && j < |peers|
    requires Weight(Sorted(peers)[i].weight) > Weight(Sorted(peers)[j].weight)
    ensures Shares(Sorted(peers))[i] >= Shares(Sorted(peers))[j]
  {
    hide SlotCounts, Reduced, Sorted, Shares;
    var s := Sorted(peers);
    var ws := Weights(s);
    ReducedIsExact(ws, i);
    ReducedIsExact(ws, j);
    if Reduced(ws)[i] <= Reduced(ws)[j] { Apportion.MulGrowsInt2(GcdOf(ws), Reduced(ws)[i], Reduced(ws)[j]); }
    HeavierNeverFewer(Reduced(ws), i, j);
    SharesAreCounts(s);
  }

  /** Every prefix of the list is even, to within half a copy of each of the two peers. */
  lemma ListIsEven(peers: seq<Peer>, m: nat, i: nat, j: nat)
    requires DistinctNames(peers) && i < |peers| && j < |peers| && m <= |SlotList(peers)|
    ensures var s, list := Sorted(peers), SlotList(peers);
      var wi, wj := Shares(s)[i], Shares(s)[j];
      -(wi + wj) <= 2 * (Occurs(list, m, s[i].name) * wj - Occurs(list, m, s[j].name) * wi) <= wi + wj
  {
    hide Spread, Shares, Occurs, SortBy;
    SortedPeers(peers);
    SpreadIsEven(PeerNames(Sorted(peers)), Shares(Sorted(peers)), m, i, j);
  }

  /** With all weights one the list is just the sorted peers. */
  lemma EqualWeightsChangeNothing(peers: seq<Peer>)
    requires DistinctNames(peers) && forall i :: 0 <= i < |peers| ==> peers[i].weight <= 1
    ensures SlotList(peers) == PeerNames(Sorted(peers))
  {
    hide SlotCounts, Reduced;
    var s := Sorted(peers);
    ByNameIsOrder();
    SortIsSorted(peers, ByName());
    SortedPeers(peers);
    SameMembers(s, peers);
    forall i | 0 <= i < |s| ensures s[i].weight <= 1 { assert s[i] in peers; }
    forall i | 0 <= i < |s| ensures Shares(s)[i] == 1 { OnesShare(s, i); }
    OnesSpread(PeerNames(s), Shares(s));
  }

  lemma OnesShare(s: seq<Peer>, i: nat)
    requires i < |s| && forall k :: 0 <= k < |s| ==> s[k].weight <= 1
    ensures Shares(s)[i] == 1
  {
    hide SlotCounts, Reduced;
    var ws := Weights(s);
    var counts := Reduced(ws);
    forall k | 0 <= k < |s| ensures counts[k] == 1 { OnesReduce(ws, k); }
    SumOfOnes(|s|, counts);
    OnesCount(counts, i);
    SharesAre(s, i);
  }

  lemma OnesReduce(ws: seq<Pos>, k: nat)
    requires k < |ws| && forall i :: 0 <= i < |ws| ==> ws[i] == 1
    ensures Reduced(ws)[k] == 1
  {
    hide Reduced, GcdOf;
    ReducedIsExact(ws, k);
    var g, r := GcdOf(ws), Reduced(ws)[k];
    Apportion.MulGrowsInt2(r, 1, g);
    assert r * g == g * r;
  }

  lemma OnesCount(counts: seq<Pos>, i: nat)
    requires i < |counts| && (forall k :: 0 <= k < |counts| ==> counts[k] == 1) && Sum(counts) == |counts|
    ensures SlotCounts(counts)[i] == 1
  {
    hide Capped;
  }

  lemma OnesSpread(names: seq<nat>, counts: seq<Pos>)
    requires |names| == |counts| && (forall i :: 0 <= i < |names| ==> counts[i] == 1)
    requires forall i, j :: 0 <= i < j < |names| ==> names[i] <= names[j]
    ensures Spread(names, counts) == names
  {
    hide MarkBefore, SortBy, MarksOf;
    OnesMarks(names, counts);
    MarkOrderIsOrder();
    var ms := MarksOf(names, counts);
    OnesSorted(ms, names);
    SortIsSorted(ms, MarkOrder());
    SortedIsUnique(ms, SortBy(ms, MarkOrder()), MarkOrder());
  }

  lemma OnesSorted(ms: seq<Mark>, names: seq<nat>)
    requires |ms| == |names|
    requires forall i :: 0 <= i < |names| ==> ms[i] == Mark(names[i], 0, 1)
    requires forall i, j :: 0 <= i < j < |names| ==> names[i] <= names[j]
    ensures SortedBy(ms, MarkOrder())
    ensures forall x, y | x in ms && y in ms :: MarkOrder()(x, y) && MarkOrder()(y, x) ==> x == y
  {
    hide MarkBefore;
    forall p: nat, q: nat { OnesCompare(p, q); }
  }

  lemma OnesCompare(p: nat, q: nat)
    ensures MarkBefore(Mark(p, 0, 1), Mark(q, 0, 1)) <==> p <= q
  {
  }

  lemma {:induction false} OnesMarks(names: seq<nat>, counts: seq<Pos>)
    requires |names| == |counts| && forall i :: 0 <= i < |names| ==> counts[i] == 1
    ensures |MarksOf(names, counts)| == |names|
    ensures forall i :: 0 <= i < |names| ==> MarksOf(names, counts)[i] == Mark(names[i], 0, 1)
    decreases |names|
  {
    if names != [] { OnesMarks(names[..|names| - 1], counts[..|names| - 1]); }
  }

  // ------------------------------------------------------------------ round robin over the list

  /** Round robin over a pool's list: every window of its length serves each peer by its shares. */
  lemma RoundRobinServesShares(peers: seq<Peer>, c: nat, i: nat)
    requires DistinctNames(peers) && i < |peers| && SlotList(peers) != []
    ensures var list := SlotList(peers);
      multiset(Window<nat>(list, c, |list|))[Sorted(peers)[i].name] == Shares(Sorted(peers))[i]
  {
    hide Shares, SlotList, Sorted, Window, At;
    var list := SlotList(peers);
    WindowIsFair<nat>(list, c);
    ListHoldsTheShares(peers, i);
    assert list[..|list|] == list;
  }

  // ------------------------------------------------------------------ the algorithm as it runs

  /** The reduction and the cap, with the leftovers handed out one by one. */
  method CountSlots(weights: seq<Pos>) returns (counts: seq<nat>)
    ensures counts == SlotCounts(Reduced(weights))
  {
    hide SlotCounts, Rank, Floor, Order, Gcd;
    var g, i := 0, 0;
    while i < |weights|
      invariant 0 <= i <= |weights| && g == GcdOf(weights[..i])
    {
      assert weights[..i + 1][..i] == weights[..i];
      g := Gcd(g, weights[i]);
      i := i + 1;
    }
    assert weights[..i] == weights;
    var reduced := Reduced(weights);
    var total := 0;
    i := 0;
    while i < |reduced|
      invariant 0 <= i <= |reduced| && total == Sum(reduced[..i])
    {
      assert reduced[..i + 1][..i] == reduced[..i];
      total := total + reduced[i];
      i := i + 1;
    }
    assert reduced[..i] == reduced;
    if total > SLOT_EXPANSION_CAP && |reduced| < SLOT_EXPANSION_CAP {
      counts := HandOut(reduced);
    } else if total > SLOT_EXPANSION_CAP {
      counts := seq(|reduced|, i => 1);
      CountsAre(reduced);
    } else {
      counts := reduced;
      CountsAre(reduced);
    }
  }

  lemma CountsAre(reduced: seq<Pos>)
    ensures Sum(reduced) > SLOT_EXPANSION_CAP && |reduced| < SLOT_EXPANSION_CAP ==> SlotCounts(reduced) == Capped(reduced)
    ensures Sum(reduced) > SLOT_EXPANSION_CAP && |reduced| >= SLOT_EXPANSION_CAP ==> SlotCounts(reduced) == seq(|reduced|, i => 1)
    ensures Sum(reduced) <= SLOT_EXPANSION_CAP ==> SlotCounts(reduced) == reduced
  {
  }

  /** One slot each, the proportional part, then the leftovers to the heaviest. */
  method HandOut(reduced: seq<Pos>) returns (counts: seq<nat>)
    requires |reduced| < SLOT_EXPANSION_CAP < Sum(reduced)
    ensures counts == SlotCounts(reduced)
  {
    hide Rank, Floors, Order, Sum, SlotCounts, Excess;
    var excess := Excess(reduced);
    ghost var floors := Floors(excess, SLOT_EXPANSION_CAP - |reduced|);
    counts := Floors(excess, SLOT_EXPANSION_CAP - |reduced|);
    LeftoversAreFew(reduced);
    OrderMembers(excess);
    var left := SLOT_EXPANSION_CAP - Sum(counts);
    ghost var most := left;
    var order, i := Order(excess), 0;
    while left > 0
      invariant 0 <= left <= most < |reduced| && i == most - left
      invariant |counts| == |reduced|
      invariant forall p: nat :: p < |reduced| ==> counts[p] == floors[p] + if p in order[..i] then 1 else 0
    {
      var p := order[i];
      assert p in order;
      assert order[..i + 1] == order[..i] + [p];
      assert p !in order[..i];
      counts := counts[p := counts[p] + 1];
      NoWrap(i + 1, |order|);
      i := (i + 1) % |order|;
      left := left - 1;
    }
    HandedOut(reduced, floors, most, counts);
  }

  lemma NoWrap(x: nat, n: nat)
    requires x < n
    ensures x % n == x
  {
  }

  lemma HandedOut(reduced: seq<Pos>, floors: seq<nat>, most: nat, counts: seq<nat>)
    requires |reduced| < SLOT_EXPANSION_CAP < Sum(reduced)
    requires floors == Floors(Excess(reduced), SLOT_EXPANSION_CAP - |reduced|) && most == SLOT_EXPANSION_CAP - Sum(floors)
    requires most <= |reduced| == |counts|
    requires forall p: nat :: p < |reduced| ==> counts[p] == floors[p] + if p in Order(Excess(reduced))[..most] then 1 else 0
    ensures counts == SlotCounts(reduced)
  {
    hide Rank, Floors, Order, Sum, Excess;
    LeftoverSet(Excess(reduced), most);
    CountsAre(reduced);
    assert counts == Capped(reduced);
  }

  /** Push the copies of every peer, sort them by position, keep the names. */
  method SpreadSlots(names: seq<nat>, counts: seq<Pos>) returns (list: seq<nat>)
    requires |names| == |counts|
    ensures list == Spread(names, counts)
  {
    hide SortBy, MarkOrder;
    var marks: seq<Mark>, i := [], 0;
    while i < |names|
      invariant 0 <= i <= |names| && marks == MarksOf(names[..i], counts[..i])
    {
      ghost var before := marks;
      var k := 0;
      while k < counts[i]
        invariant 0 <= k <= counts[i] && marks == before + Copies(names[i], counts[i])[..k]
      {
        assert Copies(names[i], counts[i])[..k + 1] == Copies(names[i], counts[i])[..k] + [Mark(names[i], k, counts[i])];
        marks := marks + [Mark(names[i], k, counts[i])];
        k := k + 1;
      }
      assert Copies(names[i], counts[i])[..k] == Copies(names[i], counts[i]);
      assert names[..i + 1][..i] == names[..i] && counts[..i + 1][..i] == counts[..i];
      i := i + 1;
    }
    assert names[..i] == names && counts[..i] == counts;
    list := NamesOf(SortBy(marks, MarkOrder()));
  }

  /** `weightedSlots`. */
  method ListSlots(peers: seq<Peer>) returns (list: seq<nat>)
    ensures list == SlotList(peers)
  {
    hide Spread, SlotCounts, Reduced, SortBy;
    var sorted := SortBy(peers, ByName());
    var counts := CountSlots(Weights(sorted));
    SharesAreCounts(sorted);
    list := SpreadSlots(PeerNames(sorted), Shares(sorted));
  }
}
