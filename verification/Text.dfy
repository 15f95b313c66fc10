/** Strings the way the admin scripts take them apart: order, joining, splitting, matching. */
module Text {
  import opened Wrappers
  import opened Sorting

  // ------------------------------------------------------------------ order

  /** Character by character; a proper prefix comes first. */
  predicate StringLe(a: string, b: string) {
    if a == [] then true
    else if b == [] then false
    else if a[0] != b[0] then a[0] < b[0]
    else StringLe(a[1..], b[1..])
  }

  function ByText(): (string, string) -> bool { (a, b) => StringLe(a, b) }

  lemma {:induction false} LeTotal(a: string, b: string)
    ensures StringLe(a, b) || StringLe(b, a)
    decreases |a|
  {
    if a != [] && b != [] && a[0] == b[0] { LeTotal(a[1..], b[1..]); }
  }

  lemma {:induction false} LeChains(a: string, b: string, c: string)
    requires StringLe(a, b) && StringLe(b, c)
    ensures StringLe(a, c)
    decreases |a|
  {
    if a != [] && a[0] == b[0] && b[0] == c[0] { LeChains(a[1..], b[1..], c[1..]); }
  }

  lemma {:induction false} LeAntisymmetric(a: string, b: string)
    requires StringLe(a, b) && StringLe(b, a)
    ensures a == b
    decreases |a|
  {
    if a != [] && b != [] {
      LeAntisymmetric(a[1..], b[1..]);
      assert a == [a[0]] + a[1..] && b == [b[0]] + b[1..];
    }
  }

  lemma ByTextIsOrder()
    ensures TotalPreorder(ByText())
    ensures forall a, b :: ByText()(a, b) && ByText()(b, a) ==> a == b
  {
    forall a: string, b: string ensures StringLe(a, b) || StringLe(b, a) { LeTotal(a, b); }
    forall a: string, b: string, c: string | StringLe(a, b) && StringLe(b, c) ensures StringLe(a, c) { LeChains(a, b, c); }
    forall a: string, b: string | StringLe(a, b) && StringLe(b, a) ensures a == b { LeAntisymmetric(a, b); }
  }

  function SortText(s: seq<string>): (r: seq<string>)
    ensures |r| == |s|
  {
    SortBy(s, ByText())
  }

  predicate NoRepeats<T(==)>(s: seq<T>) {
    forall i, j :: 0 <= i < j < |s| ==> s[i] != s[j]
  }

  /** Lists without repeats and with the same members sort to the same list. */
  lemma SameMembersSortAlike(a: seq<string>, b: seq<string>)
    requires NoRepeats(a) && NoRepeats(b) && forall x :: x in a <==> x in b
    ensures SortText(a) == SortText(b)
  {
    ByTextIsOrder();
    forall x ensures multiset(a)[x] == multiset(b)[x] {
      OnceIfThere(a, x);
      OnceIfThere(b, x);
    }
    SortIsSorted(a, ByText());
    SortIsSorted(b, ByText());
    SortedIsUnique(SortText(a), SortText(b), ByText());
  }

  lemma {:induction false} OnceIfThere<T>(s: seq<T>, x: T)
    requires NoRepeats(s)
    ensures multiset(s)[x] == if x in s then 1 else 0
    decreases |s|
  {
    if s != [] {
      var n := |s| - 1;
      OnceIfThere(s[..n], x);
      assert s == s[..n] + [s[n]];
      assert s[n] !in s[..n];
    }
  }

  lemma SortTextMembers(s: seq<string>)
    ensures SortedBy(SortText(s), ByText()) && multiset(SortText(s)) == multiset(s)
    ensures forall x :: x in SortText(s) <==> x in s
    ensures NoRepeats(s) ==> NoRepeats(SortText(s))
  {
    ByTextIsOrder();
    SortIsSorted(s, ByText());
    SameMembers(SortText(s), s);
    if NoRepeats(s) {
      forall i, j | 0 <= i < j < |s| ensures SortText(s)[i] != SortText(s)[j] {
        OnceIfThere(s, SortText(s)[i]);
        if SortText(s)[i] == SortText(s)[j] { TwiceIsTwo(SortText(s), i, j); }
      }
    }
  }

  // ------------------------------------------------------------------ joining and splitting

  function Join(xs: seq<string>, c: char): string {
    if xs == [] then []
    else if |xs| == 1 then xs[0]
    else xs[0] + [c] + Join(xs[1..], c)
  }

  lemma {:induction false} JoinLacks(xs: seq<string>, sep: char, c: char)
    requires c != sep && forall x | x in xs :: c !in x
    ensures c !in Join(xs, sep)
    decreases |xs|
  {
    if |xs| > 0 {
      assert xs[0] in xs;
      if |xs| > 1 { JoinLacks(xs[1..], sep, c); }
    }
  }

  /** The text before the first `c`, all of it when there is none. */
  function Before(s: string, c: char): (r: string)
    ensures r <= s && c !in r
    ensures |r| < |s| ==> s[|r|] == c
    ensures c !in s ==> r == s
  {
    if s == [] || s[0] == c then [] else [s[0]] + Before(s[1..], c)
  }

  /** The maximal non-empty pieces without `c`: Lua's `gmatch("[^c]+")`. */
  function Pieces(s: string, c: char): seq<string>
    decreases |s|
  {
    if s == [] then []
    else if s[0] == c then Pieces(s[1..], c)
    else [Before(s, c)] + Pieces(s[|Before(s, c)|..], c)
  }

  lemma {:induction false} BeforeIs(x: string, rest: string, c: char)
    requires c !in x && (rest == [] || rest[0] == c)
    ensures Before(x + rest, c) == x
    decreases |x|
  {
    if x == [] {
      assert x + rest == rest;
    } else {
      assert (x + rest)[1..] == x[1..] + rest;
      BeforeIs(x[1..], rest, c);
    }
  }

  /** Splitting undoes joining, for non-empty pieces without the separator. */
  lemma {:induction false} PiecesOfJoin(xs: seq<string>, c: char)
    requires forall x | x in xs :: x != [] && c !in x
    ensures Pieces(Join(xs, c), c) == xs
    decreases |xs|
  {
    if xs != [] {
      assert xs[0] in xs;
      var x := xs[0];
      if |xs| == 1 {
        BeforeIs(x, [], c);
        assert x + [] == x;
        assert Pieces(x, c) == [x] + Pieces([], c);
      } else {
        var rest := [c] + Join(xs[1..], c);
        assert Join(xs, c) == x + rest;
        BeforeIs(x, rest, c);
        assert (x + rest)[|x|..] == rest;
        assert rest[1..] == Join(xs[1..], c);
        assert forall y | y in xs[1..] :: y in xs;
        PiecesOfJoin(xs[1..], c);
        assert Pieces(x + rest, c) == [x] + Pieces(rest, c);
      }
    }
  }

  /** The text on both sides of the first `c`. */
  datatype Cut = NoCut | Cut(left: string, right: string)

  function CutAt(s: string, c: char): Cut {
    if c in s then
      var l := Before(s, c);
      Cut(l, s[|l| + 1..])
    else NoCut
  }

  lemma CutIs(x: string, y: string, c: char)
    requires c !in x
    ensures CutAt(x + [c] + y, c) == Cut(x, y)
  {
    BeforeIs(x, [c] + y, c);
    assert x + [c] + y == x + ([c] + y);
    assert (x + [c] + y)[|x|] == c;
    assert (x + [c] + y)[|x| + 1..] == y;
  }

  /** The text on both sides of the last `c`. */
  function CutAtLast(s: string, c: char): Cut {
    if s == [] then NoCut
    else if s[|s| - 1] == c then Cut(s[..|s| - 1], [])
    else
      match CutAtLast(s[..|s| - 1], c)
      case NoCut => NoCut
      case Cut(l, r) => Cut(l, r + [s[|s| - 1]])
  }

  lemma {:induction false} CutAtLastIs(x: string, y: string, c: char)
    requires c !in y
    ensures CutAtLast(x + [c] + y, c) == Cut(x, y)
    decreases |y|
  {
    var s := x + [c] + y;
    if y == [] {
      assert s == x + [c];
      assert s[..|s| - 1] == x;
    } else {
      var n := |y| - 1;
      assert s[..|s| - 1] == x + [c] + y[..n];
      assert s[|s| - 1] == y[n];
      CutAtLastIs(x, y[..n], c);
      assert y == y[..n] + [y[n]];
    }
  }

  lemma {:induction false} CutAtLastParts(s: string, c: char)
    ensures CutAtLast(s, c).Cut? ==> s == CutAtLast(s, c).left + [c] + CutAtLast(s, c).right && c !in CutAtLast(s, c).right
    decreases |s|
  {
    if s != [] && s[|s| - 1] != c {
      CutAtLastParts(s[..|s| - 1], c);
      assert s == s[..|s| - 1] + [s[|s| - 1]];
    }
  }

  // ------------------------------------------------------------------ prefixes and suffixes

  predicate EndsWith(s: string, tail: string) {
    |s| >= |tail| && s[|s| - |tail|..] == tail
  }

  /** What stands between a fixed head and a fixed tail, when the text has that shape. */
  function Between(s: string, head: string, tail: string): Option<string> {
    if head <= s && |s| >= |head| + |tail| && EndsWith(s, tail) then Some(s[|head|..|s| - |tail|]) else None
  }

  lemma BetweenIs(head: string, mid: string, tail: string)
    ensures Between(head + mid + tail, head, tail) == Some(mid)
  {
    var s := head + mid + tail;
    assert s[|s| - |tail|..] == tail;
    assert s[|head|..|s| - |tail|] == mid;
  }

  lemma BetweenParts(s: string, head: string, tail: string)
    ensures Between(s, head, tail).Some? ==> s == head + Between(s, head, tail).value + tail
  {
    if Between(s, head, tail).Some? {
      assert s == s[..|head|] + s[|head|..|s| - |tail|] + s[|s| - |tail|..];
    }
  }
}
