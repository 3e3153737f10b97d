/** Units of work: `for x in range(count)` runs max(count, 0) times, and sums of such counts. */
module Counts {

  /** The number of iterations of `for x in range(count)`. */
  function Units(count: int): (n: nat)
    ensures count >= 0 ==> n == count
    ensures count <= 0 ==> n == 0
  {
    if count > 0 then count else 0
  }

  /** The unit count of every item of a queue, in queue order. */
  function UnitsOf(q: seq<int>): (r: seq<int>)
    ensures |r| == |q|
    ensures forall j :: 0 <= j < |q| ==> r[j] == Units(q[j])
  {
    seq(|q|, j requires 0 <= j < |q| => Units(q[j]))
  }

  /** The total number of units in a queue. */
  function SumUnits(q: seq<int>): nat
  {
    if q == [] then 0 else Units(q[0]) + SumUnits(q[1..])
  }

  function Sum(s: seq<int>): int
  {
    if s == [] then 0 else s[0] + Sum(s[1..])
  }

  lemma UnitsOfAppend(a: seq<int>, b: seq<int>)
    ensures UnitsOf(a + b) == UnitsOf(a) + UnitsOf(b)
  {
  }

  lemma {:induction false} SumUnitsAppend(a: seq<int>, b: seq<int>)
    ensures SumUnits(a + b) == SumUnits(a) + SumUnits(b)
  {
    if a != [] {
      assert (a + b)[1..] == a[1..] + b;
      SumUnitsAppend(a[1..], b);
    } else {
      assert a + b == b;
    }
  }

  lemma {:induction false} SumAppend(a: seq<int>, b: seq<int>)
    ensures Sum(a + b) == Sum(a) + Sum(b)
  {
    if a != [] {
      assert (a + b)[1..] == a[1..] + b;
      SumAppend(a[1..], b);
    } else {
      assert a + b == b;
    }
  }

  /** Summing the unit counts of a queue is the same as summing its UnitsOf. */
  lemma {:induction false} SumOfUnitsOf(q: seq<int>)
    ensures Sum(UnitsOf(q)) == SumUnits(q)
  {
    if q != [] {
      assert UnitsOf(q)[1..] == UnitsOf(q[1..]);
      SumOfUnitsOf(q[1..]);
    }
  }

  /** Removing the element at j takes exactly that element off the sum. */
  lemma {:induction false} SumRemoveAt(b: seq<int>, j: nat)
    requires j < |b|
    ensures Sum(b) == b[j] + Sum(b[..j] + b[j + 1..])
  {
    if j == 0 {
      assert b[..j] + b[j + 1..] == b[1..];
    } else {
      var c := b[1..];
      SumRemoveAt(c, j - 1);
      assert b[..j] + b[j + 1..] == [b[0]] + (c[..j - 1] + c[j..]);
    }
  }

  /** Removing the element at j takes exactly that element out of the multiset. */
  lemma MultisetRemoveAt(b: seq<int>, j: nat)
    requires j < |b|
    ensures multiset(b[..j] + b[j + 1..]) == multiset(b) - multiset{b[j]}
  {
    assert b == b[..j] + [b[j]] + b[j + 1..];
    assert multiset(b) == multiset(b[..j]) + multiset{b[j]} + multiset(b[j + 1..]);
  }

  /** Two sequences holding the same elements, in any order, have the same sum. */
  lemma {:induction false} SumOfPermutation(a: seq<int>, b: seq<int>)
    requires multiset(a) == multiset(b)
    ensures Sum(a) == Sum(b)
    decreases |a|
  {
    if a == [] {
      assert |b| == |multiset(b)| == 0;
    } else {
      assert a[0] in multiset(b) by {
        assert a[0] in multiset(a);
      }
      var j :| 0 <= j < |b| && b[j] == a[0];
      var rest := b[..j] + b[j + 1..];
      MultisetRemoveAt(b, j);
      assert a == [a[0]] + a[1..];
      assert multiset(a[1..]) == multiset(a) - multiset{a[0]};
      SumOfPermutation(a[1..], rest);
      SumRemoveAt(b, j);
    }
  }
}
