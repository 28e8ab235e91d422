/** Totals over finite sets and over sequences, and the fact that ties the two together. */
module Sums {

  /** The total of `f` over a finite set; the order of summation does not matter (see `Remove`). */
  ghost function Over<T>(s: set<T>, f: T -> nat): nat {
    if s == {} then 0 else
      var x :| x in s;
      f(x) + Over(s - {x}, f)
  }

  lemma {:induction false} Remove<T>(s: set<T>, f: T -> nat, x: T)
    requires x in s
    ensures Over(s, f) == f(x) + Over(s - {x}, f)
    decreases s
  {
    var y :| y in s && Over(s, f) == f(y) + Over(s - {y}, f);
    if y != x {
      Remove(s - {y}, f, x);
      Remove(s - {x}, f, y);
      assert s - {y} - {x} == s - {x} - {y};
    }
  }

  lemma {:induction false} Disjoint<T>(a: set<T>, b: set<T>, f: T -> nat)
    requires a !! b
    ensures Over(a + b, f) == Over(a, f) + Over(b, f)
    decreases a
  {
    if a == {} {
      assert a + b == b;
    } else {
      var x :| x in a;
      Remove(a, f, x);
      Remove(a + b, f, x);
      assert a + b - {x} == (a - {x}) + b;
      Disjoint(a - {x}, b, f);
    }
  }

  lemma {:induction false} Difference<T>(a: set<T>, b: set<T>, f: T -> nat)
    requires b <= a
    ensures Over(a, f) == Over(a - b, f) + Over(b, f)
  {
    assert a == (a - b) + b;
    Disjoint(a - b, b, f);
  }

  lemma {:induction false} Pointwise<T>(s: set<T>, f: T -> nat, g: T -> nat)
    requires forall x | x in s :: f(x) == g(x)
    ensures Over(s, f) == Over(s, g)
    decreases s
  {
    if s != {} {
      var x :| x in s;
      Remove(s, f, x);
      Remove(s, g, x);
      Pointwise(s - {x}, f, g);
    }
  }

  lemma {:induction false} Lighter<T>(f: T -> nat, g: T -> nat, xs: set<T>)
    requires forall x | x in xs :: f(x) <= g(x)
    ensures Over(xs, f) <= Over(xs, g)
    ensures (exists x :: x in xs && f(x) < g(x)) ==> Over(xs, f) < Over(xs, g)
    decreases xs
  {
    if xs != {} {
      var x :| x in xs;
      if y :| y in xs && f(y) < g(y) { x := y; }
      Remove(xs, f, x);
      Remove(xs, g, x);
      Lighter(f, g, xs - {x});
    }
  }

  /** The total of `f` along a sequence, repeated elements counted each time. */
  function Along<T>(s: seq<T>, f: T -> nat): nat {
    if s == [] then 0 else f(s[0]) + Along(s[1..], f)
  }

  lemma {:induction false} AlongOne<T>(x: T, f: T -> nat)
    ensures Along([x], f) == f(x)
  {
    assert Along([x], f) == f(x) + Along([x][1..], f);
    assert [x][1..] == [];
  }

  lemma {:induction false} AlongAppend<T>(s: seq<T>, x: T, f: T -> nat)
    ensures Along(s + [x], f) == Along(s, f) + f(x)
  {
    AlongConcat(s, [x], f);
    AlongOne(x, f);
  }

  lemma {:induction false} AlongConcat<T>(a: seq<T>, b: seq<T>, f: T -> nat)
    ensures Along(a + b, f) == Along(a, f) + Along(b, f)
  {
    if a == [] {
      assert a + b == b;
    } else {
      assert (a + b)[1..] == a[1..] + b;
      AlongConcat(a[1..], b, f);
    }
  }

  ghost predicate NoRepeats<T>(s: seq<T>) {
    forall i, j :: 0 <= i < j < |s| ==> s[i] != s[j]
  }

  ghost function Elements<T>(s: seq<T>): set<T> {
    set x | x in s
  }

  /** Without repetitions the sequence total is the total over the set of its elements. */
  lemma {:induction false} AlongIsOver<T>(s: seq<T>, f: T -> nat)
    requires NoRepeats(s)
    ensures Along(s, f) == Over(Elements(s), f)
  {
    if s != [] {
      assert NoRepeats(s[1..]);
      AlongIsOver(s[1..], f);
      assert Elements(s) - {s[0]} == Elements(s[1..]);
      Remove(Elements(s), f, s[0]);
    }
  }
}
