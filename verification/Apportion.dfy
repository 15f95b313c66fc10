/**
 * How many slots each peer of a pool gets: weights are reduced by their greatest common
 * divisor and, above the cap, scaled down without losing a peer (src/control/membership.ts).
 */
module Apportion {
  import opened Sorting

  const SLOT_EXPANSION_CAP: nat := 256

  type Pos = n: nat | n > 0 witness 1

  // ------------------------------------------------------------------ greatest common divisor

  function Gcd(a: nat, b: nat): nat
    decreases b
  {
    if b == 0 then a else Gcd(b, a % b)
  }

  /** The fold of the source, from 0 over all weights. */
  function GcdOf(ws: seq<Pos>): nat {
    if ws == [] then 0 else Gcd(GcdOf(ws[..|ws| - 1]), ws[|ws| - 1])
  }

  ghost predicate Divides(d: nat, n: nat) { exists q: nat :: n == d * q }

  lemma {:induction false} GcdDivides(a: nat, b: nat)
    ensures Divides(Gcd(a, b), a) && Divides(Gcd(a, b), b)
    ensures a > 0 || b > 0 ==> Gcd(a, b) > 0
    decreases b
  {
    if b == 0 {
      assert a == a * 1 && 0 == a * 0;
    } else {
      var k, r := a / b, a % b;
      assert a == b * k + r;
      GcdDivides(b, r);
      DividesSum(Gcd(b, r), b, r, k);
    }
  }

  lemma DividesSum(g: nat, x: nat, y: nat, k: nat)
    requires Divides(g, x) && Divides(g, y)
    ensures Divides(g, x * k + y)
  {
    var q: nat :| x == g * q;
    var r: nat :| y == g * r;
    assert g * (q * k + r) == (g * q) * k + g * r;
  }

  lemma {:induction false} GcdIsGreatest(a: nat, b: nat, d: nat)
    requires Divides(d, a) && Divides(d, b)
    ensures Divides(d, Gcd(a, b))
    decreases b
  {
    if b != 0 {
      var q: nat :| b == d * q;
      var p: nat :| a == d * p;
      var t := a / b;
      assert a % b == a - b * t;
      assert a % b == d * (p - q * t) by { Distribute2(d, p, q, t); }
      if p - q * t < 0 { Negative(d, p - q * t); }
      assert Divides(d, a % b);
      GcdIsGreatest(b, a % b, d);
    }
  }

  lemma Distribute2(d: nat, p: nat, q: nat, t: nat)
    ensures d * (p - q * t) == d * p - (d * q) * t
  {
  }

  lemma Negative(d: nat, x: int)
    requires x < 0 && d * x >= 0
    ensures d == 0
  {
  }

  lemma ModScales(k: nat, a: nat, b: nat)
    requires k > 0 && b > 0
    ensures k * b > 0 && (k * a) % (k * b) == k * (a % b)
  {
    var q, r := a / b, a % b;
    assert a == b * q + r;
    assert k * a == (k * b) * q + k * r;
    assert 0 <= k * r < k * b;
    DivUnique(k * a, k * b, q, k * r);
  }

  lemma MulGrows(y: nat, a: nat, b: nat)
    requires a < b
    ensures y * a + y <= y * b
  {
    var d := b - a;
    assert y * b == y * a + y * d;
    assert y * d == y * (d - 1) + y;
  }

  lemma DivUnique(x: nat, y: nat, q: nat, r: nat)
    requires y > 0 && x == y * q + r && r < y
    ensures x / y == q && x % y == r
  {
    var q', r' := x / y, x % y;
    assert x == y * q' + r';
    if q' < q { MulGrows(y, q', q); }
    if q' > q { MulGrows(y, q, q'); }
  }

  lemma {:induction false} GcdScales(k: nat, a: nat, b: nat)
    requires k > 0
    ensures Gcd(k * a, k * b) == k * Gcd(a, b)
    decreases b
  {
    if b != 0 {
      ModScales(k, a, b);
      GcdScales(k, b, a % b);
    }
  }

  lemma {:induction false} GcdOfDivides(ws: seq<Pos>, i: nat)
    requires i < |ws|
    ensures GcdOf(ws) > 0 && Divides(GcdOf(ws), ws[i])
    decreases |ws|
  {
    var n := |ws| - 1;
    GcdDivides(GcdOf(ws[..n]), ws[n]);
    if i < n {
      GcdOfDivides(ws[..n], i);
      DividesChain(GcdOf(ws), GcdOf(ws[..n]), ws[i]);
    }
  }

  lemma DividesChain(d: nat, e: nat, n: nat)
    requires Divides(d, e) && Divides(e, n)
    ensures Divides(d, n)
  {
    var q: nat :| e == d * q;
    var r: nat :| n == e * r;
    assert n == d * (q * r) by { assert (d * q) * r == d * (q * r); }
  }

  lemma {:induction false} GcdOfIsGreatest(ws: seq<Pos>, d: nat)
    requires forall i :: 0 <= i < |ws| ==> Divides(d, ws[i])
    ensures Divides(d, GcdOf(ws))
    decreases |ws|
  {
    if ws == [] {
      assert 0 == d * 0;
    } else {
      GcdOfIsGreatest(ws[..|ws| - 1], d);
      GcdIsGreatest(GcdOf(ws[..|ws| - 1]), ws[|ws| - 1], d);
    }
  }

  function Scale(ws: seq<Pos>, k: Pos): (r: seq<Pos>)
    ensures |r| == |ws|
  {
    seq(|ws|, i requires 0 <= i < |ws| => ScaledWeight(ws[i], k))
  }

  function ScaledWeight(w: Pos, k: Pos): Pos {
    assert w * k > 0;
    k * w
  }

  lemma {:induction false} GcdOfScales(ws: seq<Pos>, k: Pos)
    ensures GcdOf(Scale(ws, k)) == k * GcdOf(ws)
    decreases |ws|
  {
    if ws != [] {
      var n := |ws| - 1;
      assert Scale(ws, k)[..n] == Scale(ws[..n], k);
      GcdOfScales(ws[..n], k);
      GcdScales(k, GcdOf(ws[..n]), ws[n]);
    }
  }

  // ------------------------------------------------------------------ reduction

  /** Every weight divided by the common divisor. */
  function Reduced(ws: seq<Pos>): (r: seq<Pos>)
    ensures |r| == |ws|
  {
    var g := GcdOf(ws);
    seq(|ws|, i requires 0 <= i < |ws| => Shared(ws[i], g))
  }

  /** The source keeps at least one slot whatever the division gives. */
  function Shared(w: Pos, g: nat): Pos {
    if g == 0 || w / g < 1 then 1 else w / g
  }

  /** Reduction is exact: the ratios between the weights are kept. */
  lemma ReducedIsExact(ws: seq<Pos>, i: nat)
    requires i < |ws|
    ensures GcdOf(ws) > 0 && ws[i] == GcdOf(ws) * Reduced(ws)[i]
  {
    GcdOfDivides(ws, i);
    var g := GcdOf(ws);
    var q: nat :| ws[i] == g * q;
    DivUnique(ws[i], g, q, 0);
    assert q >= 1;
  }

  /** Only the ratios matter: multiplying every weight changes nothing. */
  lemma ReducedIgnoresScale(ws: seq<Pos>, k: Pos)
    ensures Reduced(Scale(ws, k)) == Reduced(ws)
  {
    var a, b := Reduced(Scale(ws, k)), Reduced(ws);
    GcdOfScales(ws, k);
    forall i | 0 <= i < |ws| ensures a[i] == b[i] {
      SharedIgnoresScale(ws, k, i);
    }
  }

  lemma SharedIgnoresScale(ws: seq<Pos>, k: Pos, i: nat)
    requires i < |ws| && GcdOf(Scale(ws, k)) == k * GcdOf(ws)
    ensures Reduced(Scale(ws, k))[i] == Reduced(ws)[i]
  {
    hide Reduced, Scale, GcdOf;
    var g, a, b := GcdOf(ws), Reduced(Scale(ws, k))[i], Reduced(ws)[i];
    ReducedIsExact(ws, i);
    ReducedIsExact(Scale(ws, k), i);
    ScaledAt(ws, k, i);
    CancelScale(k, g, a, b, ws[i]);
  }

  lemma CancelScale(k: Pos, g: Pos, a: nat, b: nat, w: nat)
    requires w == g * b && k * w == (k * g) * a
    ensures a == b
  {
    assert (k * g) * b == k * (g * b);
    assert k * g > 0;
    SameFactor(k * g, a, b);
  }

  lemma ScaledAt(ws: seq<Pos>, k: Pos, i: nat)
    requires i < |ws|
    ensures Scale(ws, k)[i] == k * ws[i]
  {
  }

  lemma SameFactor(g: nat, a: nat, b: nat)
    requires g > 0 && g * a == g * b
    ensures a == b
  {
    if a < b { MulGrows(g, a, b); }
    if b < a { MulGrows(g, b, a); }
  }

  // ------------------------------------------------------------------ the cap

  function Sum(s: seq<nat>): nat {
    if s == [] then 0 else Sum(s[..|s| - 1]) + s[|s| - 1]
  }

  function Excess(counts: seq<Pos>): (e: seq<nat>)
    ensures |e| == |counts|
  {
    seq(|counts|, i requires 0 <= i < |counts| => OneLess(counts[i]))
  }

  function OneLess(c: Pos): nat { c - 1 }

  /** One slot each, and the proportional part of the budget rounded down. */
  function Floors(e: seq<nat>, budget: nat): (f: seq<nat>)
    ensures |f| == |e|
  {
    var total := Sum(e);
    seq(|e|, i requires 0 <= i < |e| => Floor(e[i], budget, total))
  }

  function Floor(x: nat, budget: nat, total: nat): (r: nat)
    ensures r >= 1
  {
    if total == 0 then 1 else 1 + x * budget / total
  }

  /** The heavier first, the earlier of equals first: who gets a leftover slot before whom. */
  predicate Ahead(e: seq<nat>, j: nat, i: nat)
    requires i < |e| && j < |e|
  {
    e[j] > e[i] || (e[j] == e[i] && j < i)
  }

  /** How many are ahead of `i`. */
  function Rank(e: seq<nat>, i: nat): nat
    requires i < |e|
  {
    |set j: nat | j < |e| && Ahead(e, j, i)|
  }

  function Capped(counts: seq<Pos>): (r: seq<nat>)
    ensures |r| == |counts|
  {
    var e := Excess(counts);
    var f := Floors(e, if |counts| < SLOT_EXPANSION_CAP then SLOT_EXPANSION_CAP - |counts| else 0);
    var left := SLOT_EXPANSION_CAP - Sum(f);
    seq(|counts|, i requires 0 <= i < |counts| => f[i] + if Rank(e, i) < left then 1 else 0)
  }

  /** The slots of each peer. */
  function SlotCounts(counts: seq<Pos>): (r: seq<nat>)
    ensures |r| == |counts|
  {
    if Sum(counts) > SLOT_EXPANSION_CAP && |counts| < SLOT_EXPANSION_CAP then Capped(counts)
    else if Sum(counts) > SLOT_EXPANSION_CAP then seq(|counts|, i => 1)
    else counts
  }

  // ------------------------------------------------------------------ the leftovers

  lemma {:induction false} SumOfPlus(a: seq<nat>, b: seq<nat>, c: seq<nat>)
    requires |a| == |b| == |c| && forall i :: 0 <= i < |a| ==> c[i] == a[i] + b[i]
    ensures Sum(c) == Sum(a) + Sum(b)
    decreases |a|
  {
    if a != [] {
      var n := |a| - 1;
      SumOfPlus(a[..n], b[..n], c[..n]);
    }
  }

  lemma {:induction false} SumOfOnes(n: nat, s: seq<nat>)
    requires |s| == n && forall i :: 0 <= i < n ==> s[i] == 1
    ensures Sum(s) == n
    decreases n
  {
    if n > 0 { SumOfOnes(n - 1, s[..n - 1]); }
  }

  lemma {:induction false} SumAtLeast(s: seq<nat>, i: nat)
    requires i < |s|
    ensures s[i] <= Sum(s)
    decreases |s|
  {
    if i < |s| - 1 { SumAtLeast(s[..|s| - 1], i); }
  }

  /** Total excess and total count differ by one per peer. */
  lemma {:induction false} ExcessSum(counts: seq<Pos>)
    ensures Sum(counts) == Sum(Excess(counts)) + |counts|
    decreases |counts|
  {
    if counts != [] {
      var n := |counts| - 1;
      assert Excess(counts)[..n] == Excess(counts[..n]);
      ExcessSum(counts[..n]);
    }
  }

  /** Rounding down loses less than one slot per peer, in units of 1/total. */
  lemma {:induction false} FloorsSum(e: seq<nat>, budget: nat, total: Pos, f: seq<nat>)
    requires |f| == |e| && forall i :: 0 <= i < |e| ==> f[i] == Floor(e[i], budget, total)
    ensures total * (Sum(f) - |e|) <= Sum(e) * budget
    ensures |e| > 0 ==> Sum(e) * budget < total * (Sum(f) - |e|) + total * |e|
    decreases |e|
  {
    if e != [] {
      var n := |e| - 1;
      FloorsSum(e[..n], budget, total, f[..n]);
      FloorStep(Sum(e[..n]), e[n], budget, total, Sum(f[..n]) - n, f[n], n);
    }
  }

  lemma FloorStep(se: nat, x: nat, budget: nat, total: Pos, sf: int, fx: nat, n: nat)
    requires fx == Floor(x, budget, total)
    requires total * sf <= se * budget
    requires n > 0 ==> se * budget < total * sf + total * n
    requires n == 0 ==> se == 0 && sf == 0
    ensures total * (sf + fx - 1) <= (se + x) * budget < total * (sf + fx - 1) + total * (n + 1)
  {
    var q, r := x * budget / total, (x * budget) % total;
    assert x * budget == total * q + r;
    assert (se + x) * budget == se * budget + x * budget;
    assert total * (sf + q) == total * sf + total * q;
    assert total * (n + 1) == total * n + total;
  }

  /** So the leftovers are fewer than the peers: every peer gets at most one. */
  lemma LeftoversAreFew(counts: seq<Pos>)
    requires Sum(counts) > SLOT_EXPANSION_CAP > |counts|
    ensures var e := Excess(counts);
      var f := Floors(e, SLOT_EXPANSION_CAP - |counts|);
      Sum(e) > 0 && 0 <= SLOT_EXPANSION_CAP - Sum(f) < |counts|
  {
    var e, budget := Excess(counts), SLOT_EXPANSION_CAP - |counts|;
    var f, total := Floors(e, budget), Sum(e);
    ExcessSum(counts);
    if counts == [] { assert false; }
    FloorsSum(e, budget, total, f);
    Squeeze(total, Sum(f) - |e|, |e|, budget);
  }

  lemma Squeeze(total: Pos, given: int, n: nat, budget: nat)
    requires total * given <= total * budget < total * given + total * n
    ensures given <= budget < given + n
  {
    assert total * given + total * n == total * (given + n);
    if given > budget { MulGrowsInt(total, budget, given); }
    if budget >= given + n { MulGrowsInt2(total, given + n, budget); }
  }

  lemma MulGrowsInt(y: Pos, a: int, b: int)
    requires a < b
    ensures y * a < y * b
  {
    var d := b - a;
    assert y * b == y * a + y * d;
    assert y * d == y * (d - 1) + y;
  }

  lemma MulGrowsInt2(y: Pos, a: int, b: int)
    requires a <= b
    ensures y * a <= y * b
  {
    if a < b { MulGrowsInt(y, a, b); }
  }

  function ExcessAt(e: seq<nat>, i: nat): nat { if i < |e| then e[i] else 0 }

  predicate NotBehind(e: seq<nat>, a: nat, b: nat) {
    ExcessAt(e, a) > ExcessAt(e, b) || (ExcessAt(e, a) == ExcessAt(e, b) && a <= b)
  }

  function Indices(n: nat): (r: seq<nat>)
    ensures |r| == n && forall i :: 0 <= i < n ==> r[i] == i
  {
    seq(n, i => i)
  }

  function Heaviest(e: seq<nat>): (nat, nat) -> bool { (a: nat, b: nat) => NotBehind(e, a, b) }

  /** The source's `order`: indices sorted heaviest first. */
  function Order(e: seq<nat>): (r: seq<nat>)
    ensures |r| == |e|
  {
    SortBy(Indices(|e|), Heaviest(e))
  }

  lemma {:induction false} IndicesOnce(n: nat)
    ensures forall i: nat :: multiset(Indices(n))[i] == if i < n then 1 else 0
    decreases n
  {
    if n > 0 {
      IndicesOnce(n - 1);
      assert Indices(n) == Indices(n - 1) + [n - 1];
    }
  }

  lemma HeaviestIsOrder(e: seq<nat>)
    ensures TotalPreorder(Heaviest(e))
  {
  }

  lemma OrderIsSorted(e: seq<nat>)
    ensures SortedBy(Order(e), Heaviest(e))
    ensures multiset(Order(e)) == multiset(Indices(|e|))
  {
    HeaviestIsOrder(e);
    SortIsSorted(Indices(|e|), Heaviest(e));
  }

  lemma OrderMembers(e: seq<nat>)
    ensures forall i: nat :: i in Order(e) <==> i < |e|
    ensures forall s, t :: 0 <= s < t < |e| ==> Order(e)[s] != Order(e)[t]
  {
    hide Order;
    OrderIsSorted(e);
    SameMembers(Order(e), Indices(|e|));
    IndicesOnce(|e|);
    forall i: nat ensures i in Order(e) <==> i < |e| {
      if i < |e| { assert Indices(|e|)[i] == i; }
    }
    forall s, t | 0 <= s < t < |e| ensures Order(e)[s] != Order(e)[t] {
      if Order(e)[s] == Order(e)[t] { TwiceIsTwo(Order(e), s, t); }
    }
  }

  /** Whoever stands at place `t` of the order has exactly `t` peers ahead. */
  lemma RankIsPlace(e: seq<nat>, t: nat)
    requires t < |e|
    ensures Order(e)[t] < |e| && Rank(e, Order(e)[t]) == t
  {
    hide Order;
    OrderIsSorted(e);
    OrderMembers(e);
    var order := Order(e);
    var i := order[t];
    assert i in order;
    var ahead := set j: nat | j < |e| && Ahead(e, j, i);
    var front := Members(order[..t]);
    forall j: nat ensures j in ahead <==> j in front {
      if j in ahead {
        assert j in order;
        var s :| 0 <= s < |e| && order[s] == j;
        if s >= t { assert false; }
        assert order[..t][s] == j;
      }
      if j in front {
        var s :| 0 <= s < t && order[s] == j;
        assert j in order && NotBehind(e, order[s], order[t]);
      }
    }
    assert ahead == front;
    DistinctCount(order[..t]);
  }

  function Members(s: seq<nat>): set<nat> { set j | j in s }

  lemma {:induction false} DistinctCount(s: seq<nat>)
    requires forall a, b :: 0 <= a < b < |s| ==> s[a] != s[b]
    ensures |Members(s)| == |s|
    decreases |s|
  {
    if s == [] {
      assert Members(s) == {};
    } else {
      var n := |s| - 1;
      DistinctCount(s[..n]);
      var front := Members(s[..n]);
      assert s[n] !in front;
      assert Members(s) == front + {s[n]};
    }
  }

  /** The peers that get a leftover slot are the front of the order. */
  lemma LeftoverSet(e: seq<nat>, left: nat)
    requires left <= |e|
    ensures forall i: nat :: i < |e| ==> (Rank(e, i) < left <==> i in Order(e)[..left])
  {
    hide Order, Rank;
    OrderMembers(e);
    forall i: nat | i < |e| ensures Rank(e, i) < left <==> i in Order(e)[..left] {
      assert i in Order(e);
      var t :| 0 <= t < |e| && Order(e)[t] == i;
      RankIsPlace(e, t);
      if t < left { assert Order(e)[..left][t] == i; }
      if i in Order(e)[..left] {
        var s :| 0 <= s < left && Order(e)[s] == i;
        assert s == t;
      }
    }
  }

  lemma {:induction false} IndicatorSum(members: set<nat>, s: seq<nat>)
    requires forall i :: 0 <= i < |s| ==> s[i] == if i in members then 1 else 0
    requires forall i :: i in members ==> i < |s|
    ensures Sum(s) == |members|
    decreases |s|
  {
    if s == [] {
      assert members == {};
    } else {
      var n := |s| - 1;
      IndicatorSum(members - {n}, s[..n]);
    }
  }

  // ------------------------------------------------------------------ the theorems

  /** No peer is lost. */
  lemma NobodyIsLost(counts: seq<Pos>, i: nat)
    requires i < |counts|
    ensures SlotCounts(counts)[i] >= 1
  {
    hide Floor, Rank;
  }

  /** The leftover slots handed out are exactly those that were left. */
  lemma LeftoverSum(e: seq<nat>, left: nat, more: seq<nat>)
    requires left <= |e| == |more|
    requires forall i: nat :: i < |e| ==> more[i] == if Rank(e, i) < left then 1 else 0
    ensures Sum(more) == left
  {
    hide Rank, Order;
    LeftoverSet(e, left);
    OrderMembers(e);
    var members := Members(Order(e)[..left]);
    DistinctCount(Order(e)[..left]);
    assert forall i: nat :: i in members ==> i in Order(e);
    IndicatorSum(members, more);
  }

  lemma CappedSum(counts: seq<Pos>)
    requires Sum(counts) > SLOT_EXPANSION_CAP > |counts|
    ensures Sum(Capped(counts)) == SLOT_EXPANSION_CAP
  {
    hide Rank, Floors, Excess, Sum;
    LeftoversAreFew(counts);
    var e := Excess(counts);
    var f := Floors(e, SLOT_EXPANSION_CAP - |counts|);
    var left := SLOT_EXPANSION_CAP - Sum(f);
    var more := seq(|counts|, i requires 0 <= i < |counts| => if Rank(e, i) < left then 1 else 0);
    LeftoverSum(e, left, more);
    SumOfPlus(f, more, Capped(counts));
  }

  /** The length of the slot list: exact up to the cap, the cap above it, one slot each when even that is too little. */
  lemma ListLength(counts: seq<Pos>)
    ensures Sum(SlotCounts(counts)) ==
      if Sum(counts) <= 256 then Sum(counts)
      else if |counts| < 256 then 256
      else |counts|
  {
    hide Capped;
    if Sum(counts) > SLOT_EXPANSION_CAP {
      if |counts| < SLOT_EXPANSION_CAP { CappedSum(counts); } else { SumOfOnes(|counts|, SlotCounts(counts)); }
    }
  }

  /** A peer's exact share of the budget, in units of 1 over the total excess. */
  function Share(counts: seq<Pos>, i: nat): nat
    requires i < |counts| <= SLOT_EXPANSION_CAP
  {
    Excess(counts)[i] * (SLOT_EXPANSION_CAP - |counts|)
  }

  lemma CappedAt(counts: seq<Pos>, i: nat)
    requires i < |counts| < SLOT_EXPANSION_CAP < Sum(counts)
    ensures var f := Floor(Excess(counts)[i], SLOT_EXPANSION_CAP - |counts|, Sum(Excess(counts)));
      f <= SlotCounts(counts)[i] <= f + 1
  {
    hide Rank, Floor, Sum, Excess;
  }

  /** Above the cap a peer's extra slots are within one of its exact share of the budget. */
  lemma WithinOneOfQuota(counts: seq<Pos>, i: nat)
    requires i < |counts| < SLOT_EXPANSION_CAP < Sum(counts)
    ensures var total := Sum(Excess(counts));
      Share(counts, i) - total < total * (SlotCounts(counts)[i] - 1) <= Share(counts, i) + total
  {
    hide SlotCounts, Sum, Excess, Floor;
    LeftoversAreFew(counts);
    CappedAt(counts, i);
    var e := Excess(counts);
    FloorIs(e[i], SLOT_EXPANSION_CAP - |counts|, Sum(e));
    NobodyIsLost(counts, i);
    WithinOne(Sum(e), Share(counts, i), Floor(e[i], SLOT_EXPANSION_CAP - |counts|, Sum(e)), SlotCounts(counts)[i]);
  }

  lemma FloorIs(x: nat, budget: nat, total: Pos)
    ensures x * budget >= 0 && Floor(x, budget, total) == 1 + (x * budget) / total
  {
  }

  lemma WithinOne(total: Pos, share: nat, f: nat, c: nat)
    requires f == 1 + share / total && f <= c <= f + 1
    ensures share - total < total * (c - 1) <= share + total
  {
    var q := share / total;
    assert share == total * q + share % total;
    assert total * (q + 1) == total * q + total;
  }

  /** A heavier peer never gets fewer slots. */
  lemma HeavierNeverFewer(counts: seq<Pos>, i: nat, j: nat)
    requires i < |counts| && j < |counts| && counts[i] > counts[j]
    ensures SlotCounts(counts)[i] >= SlotCounts(counts)[j]
  {
    hide Rank, Floor;
    if Sum(counts) > SLOT_EXPANSION_CAP > |counts| {
      var e, budget := Excess(counts), SLOT_EXPANSION_CAP - |counts|;
      LeftoversAreFew(counts);
      RankFollowsWeight(e, i, j);
      FloorFollowsWeight(e[i], e[j], budget, Sum(e));
    }
  }

  lemma RankFollowsWeight(e: seq<nat>, i: nat, j: nat)
    requires i < |e| && j < |e| && e[i] > e[j]
    ensures Rank(e, i) < Rank(e, j)
  {
    var a, b := set k: nat | k < |e| && Ahead(e, k, i), set k: nat | k < |e| && Ahead(e, k, j);
    assert a <= b && i in b && i !in a;
    SmallerSet(a, b, i);
  }

  lemma SmallerSet(a: set<nat>, b: set<nat>, x: nat)
    requires a <= b && x in b && x !in a
    ensures |a| < |b|
  {
    assert |b| == |b - a| + |a|;
    assert x in b - a;
  }

  lemma FloorFollowsWeight(x: nat, y: nat, budget: nat, total: Pos)
    requires x > y
    ensures Floor(x, budget, total) >= Floor(y, budget, total)
  {
    var d := x - y;
    assert x * budget == y * budget + d * budget;
    var p, q := y * budget / total, x * budget / total;
    assert y * budget == total * p + (y * budget) % total;
    assert x * budget == total * q + (x * budget) % total;
    if q < p { MulGrows(total, q, p); }
  }
}
