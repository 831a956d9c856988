// Small shared vocabulary: optional values and sums over finite sets of keys.
module Basics {
  datatype Option<+T> = None | Some(value: T)

  function Min(a: int, b: int): int { if a <= b then a else b }

  /** Any element at all: how a map or set is iterated in no particular order. */
  method Pick<T>(s: set<T>) returns (x: T)
    requires s != {}
    ensures x in s
  {
    x :| x in s;
  }

  /** The sum of f over a finite set; the order of picking does not matter (SumSplit). */
  ghost function Sum<T>(s: set<T>, f: T -> nat): nat
  {
    if s == {} then 0
    else
      var x :| x in s;
      f(x) + Sum(s - {x}, f)
  }

  lemma {:induction false} SumSplit<T>(s: set<T>, f: T -> nat, x: T)
    requires x in s
    ensures Sum(s, f) == f(x) + Sum(s - {x}, f)
    decreases |s|
  {
    var y :| y in s && Sum(s, f) == f(y) + Sum(s - {y}, f);
    if y != x {
      SumSplit(s - {y}, f, x);
      SumSplit(s - {x}, f, y);
      assert s - {y} - {x} == s - {x} - {y};
    }
  }

  lemma {:induction false} SumAdd<T>(s: set<T>, f: T -> nat, x: T)
    requires x !in s
    ensures Sum(s + {x}, f) == f(x) + Sum(s, f)
  {
    SumSplit(s + {x}, f, x);
    assert s + {x} - {x} == s;
  }

  lemma MulMonotone(a: nat, b: nat, c: nat)
    requires a <= b
    ensures a * c <= b * c
  {
  }

  lemma MulAssociates(a: nat, b: nat, c: nat)
    ensures a * (b * c) == (a * b) * c
  {
  }

  /** A pointwise bound by a common factor bounds the sum by that factor. */
  lemma {:induction false} SumScaled<T>(s: set<T>, f: T -> nat, g: T -> nat, c: nat)
    requires forall x | x in s :: f(x) <= g(x) * c
    ensures Sum(s, f) <= Sum(s, g) * c
    decreases |s|
  {
    if s != {} {
      var x :| x in s;
      SumSplit(s, f, x);
      SumSplit(s, g, x);
      SumScaled(s - {x}, f, g, c);
      assert (g(x) + Sum(s - {x}, g)) * c == g(x) * c + Sum(s - {x}, g) * c;
    }
  }

  lemma {:induction false} SubsetSize<T>(a: set<T>, b: set<T>)
    requires a <= b
    ensures |a| <= |b|
    ensures |a| == |b| ==> a == b
    decreases |a|
  {
    if a != {} {
      var x :| x in a;
      SubsetSize(a - {x}, b - {x});
      assert |a| == |b| ==> a == (a - {x}) + {x} == (b - {x}) + {x} == b;
    } else {
      assert |b| == 0 ==> b == {};
    }
  }
}
