/**
 * The order in which a PnL summary lists its coins.
 *
 * Coins are plain strings and the summary is keyed in ascending
 * lexicographic order of their characters' code points, the order
 * Python's `sorted` puts `str` values in.  Dafny's own `<` on sequences
 * means "proper prefix", so the order is defined here explicitly, proved
 * to be a strict total order, and used to build the sorted, duplicate-free
 * key list of a summary.
 */
module CoinOrder {

  /** Code-point lexicographic order: `a` sorts strictly before `b`. */
  predicate Less(a: string, b: string)
    decreases |a|
  {
    if a == [] then b != []
    else if b == [] then false
    else if a[0] != b[0] then a[0] < b[0]
    else Less(a[1..], b[1..])
  }

  lemma {:induction false} LessIrreflexive(a: string)
    ensures !Less(a, a)
  {
    if a != [] {
      LessIrreflexive(a[1..]);
    }
  }

  lemma {:induction false} LessTransitive(a: string, b: string, c: string)
    requires Less(a, b) && Less(b, c)
    ensures Less(a, c)
    decreases |a|
  {
    if a != [] && a[0] == b[0] && b[0] == c[0] {
      LessTransitive(a[1..], b[1..], c[1..]);
    }
  }

  /** Any two different coins are ordered one way or the other. */
  lemma {:induction false} LessTotal(a: string, b: string)
    requires a != b
    ensures Less(a, b) || Less(b, a)
    decreases |a|
  {
    if a != [] && b != [] && a[0] == b[0] {
      assert a == [a[0]] + a[1..] && b == [b[0]] + b[1..];
      LessTotal(a[1..], b[1..]);
    }
  }

  lemma LessAsymmetric(a: string, b: string)
    requires Less(a, b)
    ensures !Less(b, a)
  {
    if Less(b, a) {
      LessTransitive(a, b, a);
      LessIrreflexive(a);
    }
  }

  /** The set of values a sequence holds. */
  function Elems(xs: seq<string>): set<string>
  {
    set x | x in xs
  }

  /** Ascending with no repeats: every coin appears at most once. */
  predicate StrictlySorted(xs: seq<string>)
  {
    forall i, j :: 0 <= i < j < |xs| ==> Less(xs[i], xs[j])
  }

  predicate NoDuplicates(xs: seq<string>)
  {
    forall i, j :: 0 <= i < j < |xs| ==> xs[i] != xs[j]
  }

  lemma SortedHasNoDuplicates(xs: seq<string>)
    requires StrictlySorted(xs)
    ensures NoDuplicates(xs)
  {
    forall i, j | 0 <= i < j < |xs|
      ensures xs[i] != xs[j]
    {
      LessIrreflexive(xs[i]);
    }
  }

  /**
   * Adds `c` to a strictly sorted key list at its place, or leaves the
   * list alone when `c` is already in it.
   */
  function Insert(xs: seq<string>, c: string): (r: seq<string>)
    requires StrictlySorted(xs)
    ensures StrictlySorted(r)
    ensures Elems(r) == Elems(xs) + {c}
  {
    if xs == [] then [c]
    else if c == xs[0] then xs
    else if Less(c, xs[0]) then
      InsertAtFront(xs, c);
      [c] + xs
    else
      LessTotal(c, xs[0]);
      var rest := Insert(xs[1..], c);
      InsertAfterHead(xs, c, rest);
      [xs[0]] + rest
  }

  lemma InsertAtFront(xs: seq<string>, c: string)
    requires StrictlySorted(xs) && xs != [] && Less(c, xs[0])
    ensures StrictlySorted([c] + xs)
    ensures Elems([c] + xs) == Elems(xs) + {c}
  {
    forall j | 0 < j < |xs|
      ensures Less(c, xs[j])
    {
      LessTransitive(c, xs[0], xs[j]);
    }
  }

  lemma InsertAfterHead(xs: seq<string>, c: string, rest: seq<string>)
    requires StrictlySorted(xs) && xs != [] && Less(xs[0], c)
    requires StrictlySorted(rest) && Elems(rest) == Elems(xs[1..]) + {c}
    ensures StrictlySorted([xs[0]] + rest)
    ensures Elems([xs[0]] + rest) == Elems(xs) + {c}
  {
    assert xs == [xs[0]] + xs[1..];
    assert Elems(xs) == {xs[0]} + Elems(xs[1..]);
    assert Elems([xs[0]] + rest) == {xs[0]} + Elems(rest);
    forall j | 0 <= j < |rest|
      ensures Less(xs[0], rest[j])
    {
      assert rest[j] in Elems(rest);
      if rest[j] != c {
        var k :| 0 <= k < |xs[1..]| && xs[1..][k] == rest[j];
        assert xs[k + 1] == rest[j];
      }
    }
  }

  /**
   * The sorted, duplicate-free list of the coins in `cs`, built by
   * inserting them one after another.
   */
  function SortCoins(cs: seq<string>): (r: seq<string>)
    ensures StrictlySorted(r)
    ensures Elems(r) == Elems(cs)
  {
    if cs == [] then []
    else
      var prefix := cs[..|cs| - 1];
      assert cs == prefix + [cs[|cs| - 1]];
      assert Elems(cs) == Elems(prefix) + {cs[|cs| - 1]};
      Insert(SortCoins(prefix), cs[|cs| - 1])
  }

  /**
   * A strictly sorted list is determined by the set of its values: there
   * is exactly one ascending, duplicate-free listing of a set of coins.
   */
  lemma {:induction false} SortedUnique(a: seq<string>, b: seq<string>)
    requires StrictlySorted(a) && StrictlySorted(b)
    requires Elems(a) == Elems(b)
    ensures a == b
    decreases |a|
  {
    if a == [] {
      assert forall i | 0 <= i < |b| :: b[i] in Elems(b);
    } else {
      assert a[0] in Elems(b);
      assert b != [];
      assert b[0] in Elems(a);
      if a[0] != b[0] {
        var k :| 0 <= k < |b| && b[k] == a[0];
        var m :| 0 <= m < |a| && a[m] == b[0];
        assert k > 0 && m > 0;
        LessAsymmetric(a[0], a[m]);
      }
      HeadNotInTail(a);
      HeadNotInTail(b);
      SortedUnique(a[1..], b[1..]);
      assert a == [a[0]] + a[1..] && b == [b[0]] + b[1..];
    }
  }

  lemma HeadNotInTail(xs: seq<string>)
    requires StrictlySorted(xs) && xs != []
    ensures StrictlySorted(xs[1..])
    ensures xs[0] !in Elems(xs[1..])
    ensures Elems(xs[1..]) == Elems(xs) - {xs[0]}
  {
    SortedHasNoDuplicates(xs);
    assert xs == [xs[0]] + xs[1..];
  }
}
