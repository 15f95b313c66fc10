/**
 * `list[(c % #list) + 1]` for a counter that goes on counting: how a shared counter or a checksum
 * goes round a list (src/conf/render.ts).
 */
module Rotation {
  import opened Apportion

  /** The entry for this value of the counter; Lua counts from one. */
  function At<T>(list: seq<T>, c: nat): (r: T)
    requires list != []
    ensures r in list
  {
    list[c % |list|]
  }

  /** The entries for `n` consecutive values of the counter. */
  function Window<T>(list: seq<T>, c: nat, n: nat): (r: seq<T>)
    requires list != []
    ensures |r| == n
    ensures forall i :: 0 <= i < n ==> r[i] == At(list, c + i)
  {
    seq(n, i requires 0 <= i < n => At(list, c + i))
  }

  /** Whatever the counter starts from, one list length of values takes every entry once. */
  lemma WindowIsFair<T>(list: seq<T>, c: nat)
    requires list != []
    ensures multiset(Window(list, c, |list|)) == multiset(list)
  {
    var n := |list|;
    var r := c % n;
    forall i | 0 <= i < n ensures Window(list, c, n)[i] == (list[r..] + list[..r])[i] {
      WrapAround(c, n, i);
    }
    assert Window(list, c, n) == list[r..] + list[..r];
    assert list == list[..r] + list[r..];
  }

  /** Two values one list length apart take the same entry. */
  lemma ComesRound<T>(list: seq<T>, c: nat)
    requires list != []
    ensures At(list, c + |list|) == At(list, c)
  {
    var n := |list|;
    DivUnique(c + n, n, c / n + 1, c % n);
  }

  lemma WrapAround(c: nat, n: nat, i: nat)
    requires i < n
    ensures (c + i) % n == if c % n + i < n then c % n + i else c % n + i - n
  {
    var q, r := c / n, c % n;
    if r + i < n { DivUnique(c + i, n, q, r + i); } else { DivUnique(c + i, n, q + 1, r + i - n); }
  }
}
