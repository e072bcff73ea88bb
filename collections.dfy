/** Ruby's `Array#sort` on strings and `Array#-`, with the facts the providers rely on. */
module Collections {

  /** `a <= b` in Ruby's String ordering: character by character, a proper prefix first. */
  predicate Le(a: string, b: string)
    decreases |a|
  {
    a == [] || (b != [] && (a[0] < b[0] || (a[0] == b[0] && Le(a[1..], b[1..]))))
  }

  lemma {:induction false} LeReflexive(a: string)
    ensures Le(a, a)
    decreases |a|
  {
    if a != [] {
      LeReflexive(a[1..]);
    }
  }

  lemma {:induction false} LeTotal(a: string, b: string)
    ensures Le(a, b) || Le(b, a)
    decreases |a|
  {
    if a != [] && b != [] && a[0] == b[0] {
      LeTotal(a[1..], b[1..]);
    }
  }

  lemma {:induction false} LeAntisymmetric(a: string, b: string)
    requires Le(a, b) && Le(b, a)
    ensures a == b
    decreases |a|
  {
    if a != [] {
      LeAntisymmetric(a[1..], b[1..]);
      assert a == [a[0]] + a[1..] && b == [b[0]] + b[1..];
    }
  }

  lemma {:induction false} LeTransitive(a: string, b: string, c: string)
    requires Le(a, b) && Le(b, c)
    ensures Le(a, c)
    decreases |a|
  {
    if a != [] && a[0] == b[0] && b[0] == c[0] {
      LeTransitive(a[1..], b[1..], c[1..]);
    }
  }

  lemma ConcatAssoc<T>(a: seq<T>, b: seq<T>, c: seq<T>)
    ensures a + (b + c) == (a + b) + c
  {
  }

  predicate Sorted(s: seq<string>) {
    forall i, j :: 0 <= i < j < |s| ==> Le(s[i], s[j])
  }

  /** Every element of `s` is at least `x`. */
  predicate Bounds(x: string, s: seq<string>) {
    forall i :: 0 <= i < |s| ==> Le(x, s[i])
  }

  lemma SortedTail(a: seq<string>)
    requires Sorted(a) && a != []
    ensures Sorted(a[1..])
  {
    forall i, j | 0 <= i < j < |a| - 1 ensures Le(a[1..][i], a[1..][j]) {
      assert a[1..][i] == a[i + 1] && a[1..][j] == a[j + 1];
    }
  }

  lemma ConsEqual<T>(a: seq<T>, b: seq<T>)
    requires a != [] && b != [] && a[0] == b[0] && a[1..] == b[1..]
    ensures a == b
  {
    assert a == [a[0]] + a[1..] && b == [b[0]] + b[1..];
  }

  /** The head of a sorted array bounds its tail. */
  lemma HeadBounds(s: seq<string>)
    requires Sorted(s) && s != []
    ensures Bounds(s[0], s[1..])
  {
    forall i | 0 <= i < |s| - 1 ensures Le(s[0], s[1..][i]) {
      assert s[1..][i] == s[i + 1];
    }
  }

  lemma ConsSorted(x: string, s: seq<string>)
    requires Sorted(s) && Bounds(x, s)
    ensures Sorted([x] + s)
  {
    var r := [x] + s;
    forall i, j | 0 <= i < j < |r| ensures Le(r[i], r[j]) {
      if i > 0 { assert r[i] == s[i - 1] && r[j] == s[j - 1]; }
      else { assert r[j] == s[j - 1]; }
    }
  }

  lemma ConsBounds(y: string, x: string, s: seq<string>)
    requires Le(y, x) && Bounds(y, s)
    ensures Bounds(y, [x] + s)
  {
    var r := [x] + s;
    forall i | 0 <= i < |r| ensures Le(y, r[i]) {
      if i > 0 { assert r[i] == s[i - 1]; }
    }
  }

  lemma ConsMultisetOf(y: string, t: seq<string>, r: seq<string>, x: string)
    requires multiset(r) == multiset(t) + multiset{x}
    ensures multiset([y] + r) == multiset([y] + t) + multiset{x}
  {
    calc {
      multiset([y] + r);
      multiset{y} + multiset(r);
      multiset{y} + (multiset(t) + multiset{x});
      (multiset{y} + multiset(t)) + multiset{x};
      multiset([y] + t) + multiset{x};
    }
  }

  lemma ConsAdds(x: string, s: seq<string>)
    ensures multiset([x] + s) == multiset(s) + multiset{x}
  {
    calc {
      multiset([x] + s);
      multiset{x} + multiset(s);
      multiset(s) + multiset{x};
    }
  }

  function Insert(x: string, s: seq<string>): (r: seq<string>)
    requires Sorted(s)
    ensures Sorted(r) && multiset(r) == multiset(s) + multiset{x}
    ensures forall y :: Bounds(y, s) && Le(y, x) ==> Bounds(y, r)
    decreases |s|
  {
    if s == [] || Le(x, s[0]) then
      assert Bounds(x, s) by {
        forall i | 0 <= i < |s| ensures Le(x, s[i]) {
          if i > 0 { LeTransitive(x, s[0], s[i]); }
        }
      }
      ConsSorted(x, s);
      ConsAdds(x, s);
      assert forall y :: Bounds(y, s) && Le(y, x) ==> Bounds(y, [x] + s) by {
        forall y | Bounds(y, s) && Le(y, x) ensures Bounds(y, [x] + s) { ConsBounds(y, x, s); }
      }
      [x] + s
    else
      LeTotal(x, s[0]);
      SortedTail(s);
      HeadBounds(s);
      var rest := Insert(x, s[1..]);
      assert s == [s[0]] + s[1..];
      ConsMultisetOf(s[0], s[1..], rest, x);
      assert Bounds(s[0], rest);
      ConsSorted(s[0], rest);
      assert forall y :: Bounds(y, s) && Le(y, x) ==> Bounds(y, [s[0]] + rest) by {
        forall y | Bounds(y, s) && Le(y, x) ensures Bounds(y, [s[0]] + rest) {
          assert Bounds(y, s[1..]);
          ConsBounds(y, s[0], rest);
        }
      }
      [s[0]] + rest
  }

  /** Ruby's `sort` on an array of strings. */
  function Sort(s: seq<string>): (r: seq<string>)
    ensures Sorted(r) && multiset(r) == multiset(s) && |r| == |s|
    decreases |s|
  {
    if s == [] then []
    else
      assert s == [s[0]] + s[1..];
      var r := Insert(s[0], Sort(s[1..]));
      assert |r| == |multiset(r)|;
      r
  }

  /** The first element of a sorted array is at most every element of it. */
  lemma SortedHeadLeast(a: seq<string>, x: string)
    requires Sorted(a) && x in a
    ensures Le(a[0], x)
  {
    var i :| 0 <= i < |a| && a[i] == x;
    if i == 0 { LeReflexive(x); }
  }

  lemma ConsMultiset(a: seq<string>)
    requires a != []
    ensures multiset(a[1..]) == multiset(a) - multiset{a[0]}
  {
    assert a == [a[0]] + a[1..];
    assert multiset(a) == multiset{a[0]} + multiset(a[1..]);
  }

  /** Two sorted arrays holding the same elements are the same array. */
  lemma {:induction false} SortedUnique(a: seq<string>, b: seq<string>)
    requires Sorted(a) && Sorted(b) && multiset(a) == multiset(b)
    ensures a == b
    decreases |a|
  {
    if a == [] {
      assert |multiset(b)| == 0;
    } else {
      assert a[0] in multiset(b);
      assert b != [];
      assert b[0] in multiset(a);
      SortedHeadLeast(a, b[0]);
      SortedHeadLeast(b, a[0]);
      LeAntisymmetric(a[0], b[0]);
      ConsMultiset(a);
      ConsMultiset(b);
      SortedTail(a);
      SortedTail(b);
      SortedUnique(a[1..], b[1..]);
      ConsEqual(a, b);
    }
  }

  /** Sorting identifies exactly the arrays that are permutations of each other. */
  lemma SortEqualIffPermutation(a: seq<string>, b: seq<string>)
    ensures Sort(a) == Sort(b) <==> multiset(a) == multiset(b)
  {
    if multiset(a) == multiset(b) {
      SortedUnique(Sort(a), Sort(b));
    }
  }

  /** `r` is `a` with some elements removed, the rest in their original order. */
  predicate IsSubsequence<T(==)>(r: seq<T>, a: seq<T>)
    decreases |a|
  {
    r == [] || (a != [] && ((r[0] == a[0] && IsSubsequence(r[1..], a[1..])) || IsSubsequence(r, a[1..])))
  }

  /** Ruby's `a - b`: the elements of `a` that do not occur in `b`, in order, duplicates kept. */
  function Minus(a: seq<string>, b: seq<string>): (r: seq<string>)
    ensures forall x :: x in r <==> x in a && x !in b
    ensures forall x :: multiset(r)[x] == if x in b then 0 else multiset(a)[x]
    ensures IsSubsequence(r, a)
    decreases |a|
  {
    if a == [] then []
    else
      assert a == [a[0]] + a[1..];
      var rest := Minus(a[1..], b);
      if a[0] in b then
        assert IsSubsequence(rest, a) by {
          if rest != [] { assert IsSubsequence(rest, a[1..]); }
        }
        rest
      else
        assert ([a[0]] + rest)[1..] == rest;
        [a[0]] + rest
  }

  lemma MinusEmptyIff(a: seq<string>, b: seq<string>)
    ensures Minus(a, b) == [] <==> forall x :: x in a ==> x in b
  {
    if Minus(a, b) != [] {
      assert Minus(a, b)[0] in Minus(a, b);
    }
  }

  /** How many elements an early-exit scan visits when it stops at position `k` of `n`. */
  function Through(k: nat, n: nat): nat {
    if k < n then k + 1 else n
  }
}
