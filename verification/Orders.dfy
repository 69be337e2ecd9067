/** The lexicographic order of strings, as sorted maps and sorted lists of labels use it. */
module Orders {
  function Leq(a: string, b: string): bool {
    a == [] || (b != [] && (a[0] < b[0] || (a[0] == b[0] && Leq(a[1..], b[1..]))))
  }

  lemma {:induction false} LeqRefl(a: string)
    ensures Leq(a, a)
  {
    if a != [] {
      LeqRefl(a[1..]);
    }
  }

  lemma {:induction false} LeqTotal(a: string, b: string)
    ensures Leq(a, b) || Leq(b, a)
  {
    if a != [] && b != [] {
      LeqTotal(a[1..], b[1..]);
    }
  }

  lemma {:induction false} LeqAntisym(a: string, b: string)
    requires Leq(a, b) && Leq(b, a)
    ensures a == b
  {
    if a != [] {
      LeqAntisym(a[1..], b[1..]);
      assert a == [a[0]] + a[1..] && b == [b[0]] + b[1..];
    }
  }

  lemma {:induction false} LeqTrans(a: string, b: string, c: string)
    requires Leq(a, b) && Leq(b, c)
    ensures Leq(a, c)
  {
    if a != [] && a[0] == b[0] && b[0] == c[0] {
      LeqTrans(a[1..], b[1..], c[1..]);
    }
  }

  /** `a` comes before `b` at place `i`, the first at which they differ. */
  ghost predicate DiffersAt(a: string, b: string, i: nat) {
    i < |a| && i < |b| && a[..i] == b[..i] && a[i] < b[i]
  }

  /** Lexicographic: a prefix comes first, and otherwise the first difference decides. */
  lemma {:induction false} LeqIff(a: string, b: string)
    ensures Leq(a, b) <==> a <= b || exists i: nat :: DiffersAt(a, b, i)
  {
    if a != [] && b != [] {
      var x, y := a[1..], b[1..];
      LeqIff(x, y);
      assert a == [a[0]] + x && b == [b[0]] + y;
      if a[0] < b[0] {
        assert DiffersAt(a, b, 0);
      } else if a[0] == b[0] {
        assert a <= b <==> x <= y;
        if exists i: nat :: DiffersAt(x, y, i) {
          var i: nat :| DiffersAt(x, y, i);
          DiffersLater(a, b, i);
          assert DiffersAt(a, b, i + 1);
        }
        if exists i: nat :: DiffersAt(a, b, i) {
          var i: nat :| DiffersAt(a, b, i);
          DiffersLater(a, b, i - 1);
          assert DiffersAt(x, y, i - 1);
        }
      } else {
        FirstDecides(a, b);
      }
    }
  }

  lemma DiffersLater(a: string, b: string, i: nat)
    requires a != [] && b != [] && a[0] == b[0]
    ensures DiffersAt(a, b, i + 1) <==> DiffersAt(a[1..], b[1..], i)
  {
    if i < |a[1..]| && i < |b[1..]| {
      assert a[..i + 1] == [a[0]] + a[1..][..i] && b[..i + 1] == [b[0]] + b[1..][..i];
      if a[..i + 1] == b[..i + 1] {
        assert a[1..][..i] == a[..i + 1][1..] && b[1..][..i] == b[..i + 1][1..];
      }
    }
  }

  lemma FirstDecides(a: string, b: string)
    requires a != [] && b != [] && a[0] > b[0]
    ensures !(a <= b) && forall i: nat :: !DiffersAt(a, b, i)
  {
    forall i: nat ensures !DiffersAt(a, b, i) {
      if 0 < i < |a| && i < |b| {
        assert a[..i][0] != b[..i][0];
      }
    }
  }

  ghost predicate IsLeast(x: string, s: set<string>) {
    x in s && forall y :: y in s ==> Leq(x, y)
  }

  lemma LeastUnique(x: string, y: string, s: set<string>)
    requires IsLeast(x, s) && IsLeast(y, s)
    ensures x == y
  {
    LeqAntisym(x, y);
  }

  lemma {:induction false} LeastExists(s: set<string>)
    requires s != {}
    ensures exists x :: IsLeast(x, s)
    decreases |s|
  {
    var y :| y in s;
    LeqRefl(y);
    if s == {y} {
      assert IsLeast(y, s);
    } else {
      assert s - {y} != {} by {
        assert s == (s - {y}) + {y};
      }
      LeastExists(s - {y});
      var z :| IsLeast(z, s - {y});
      LeqTotal(y, z);
      if Leq(z, y) {
        assert IsLeast(z, s);
      } else {
        forall u | u in s ensures Leq(y, u) {
          if u != y {
            LeqTrans(y, z, u);
          }
        }
        assert IsLeast(y, s);
      }
    }
  }

  /** The first label of a set that is not empty. */
  ghost function First(s: set<string>): (x: string)
    requires s != {}
    ensures IsLeast(x, s)
  {
    LeastExists(s);
    var x :| IsLeast(x, s);
    x
  }

  /** The same, found by looking at each. */
  method Least(s: set<string>) returns (x: string)
    requires s != {}
    ensures IsLeast(x, s)
  {
    x :| x in s;
    var rest := s;
    LeqRefl(x);
    while rest != {}
      invariant rest <= s && x in s && Leq(x, x)
      invariant forall y :: y in s && y !in rest ==> Leq(x, y)
      decreases |rest|
    {
      var y :| y in rest;
      if !Leq(x, y) {
        LeqTotal(x, y);
        forall z | z in s && z !in rest ensures Leq(y, z) {
          LeqTrans(y, x, z);
        }
        x := y;
      }
      LeqRefl(x);
      rest := rest - {y};
    }
  }

  /** Ascending without repetition. */
  ghost predicate StrictlySorted(xs: seq<string>) {
    forall i, j :: 0 <= i < j < |xs| ==> Leq(xs[i], xs[j]) && xs[i] != xs[j]
  }

  ghost function Members(xs: seq<string>): set<string> {
    set x | x in xs
  }

  lemma HasMembers(xs: seq<string>)
    requires xs != []
    ensures Members(xs) != {}
  {
    assert xs[0] in Members(xs);
  }

  /** A set has only one sorted list. */
  lemma {:induction false} SortedUnique(xs: seq<string>, ys: seq<string>)
    requires StrictlySorted(xs) && StrictlySorted(ys) && Members(xs) == Members(ys)
    ensures xs == ys
    decreases |xs|
  {
    if xs == [] {
      if ys != [] {
        HasMembers(ys);
      }
    } else {
      assert xs[0] in Members(ys);
      var k :| 0 <= k < |ys| && ys[k] == xs[0];
      assert ys[0] in Members(xs);
      var j :| 0 <= j < |xs| && xs[j] == ys[0];
      HeadsAgree(xs, ys, j, k);
      var xt, yt := xs[1..], ys[1..];
      assert xs == [xs[0]] + xt && ys == [ys[0]] + yt;
      forall x ensures x in Members(xt) <==> x in Members(xs) && x != xs[0] {
        assert x in xs <==> x == xs[0] || x in xt;
      }
      forall y ensures y in Members(yt) <==> y in Members(ys) && y != ys[0] {
        assert y in ys <==> y == ys[0] || y in yt;
      }
      SortedUnique(xt, yt);
    }
  }

  lemma HeadsAgree(xs: seq<string>, ys: seq<string>, j: nat, k: nat)
    requires StrictlySorted(xs) && StrictlySorted(ys) && j < |xs| && k < |ys| && xs[j] == ys[0] && ys[k] == xs[0]
    ensures xs[0] == ys[0]
  {
    if j > 0 && k > 0 {
      LeqAntisym(xs[0], ys[0]);
    }
  }

  /** Put `x` into a sorted list unless it is there. */
  method InsertSorted(xs: seq<string>, x: string) returns (r: seq<string>)
    requires StrictlySorted(xs)
    ensures StrictlySorted(r) && Members(r) == Members(xs) + {x}
  {
    var p := 0;
    while p < |xs| && xs[p] != x && Leq(xs[p], x)
      invariant 0 <= p <= |xs|
      invariant forall i :: 0 <= i < p ==> Leq(xs[i], x) && xs[i] != x
    {
      p := p + 1;
    }
    if p < |xs| && xs[p] == x {
      r := xs;
      return;
    }
    r := xs[..p] + [x] + xs[p..];
    if p < |xs| {
      LeqTotal(xs[p], x);
      forall i | p <= i < |xs| ensures Leq(x, xs[i]) && x != xs[i] {
        BeyondStaysBeyond(xs, p, i, x);
      }
    }
    InsertedSorted(xs, p, x);
  }

  lemma InsertedSorted(xs: seq<string>, p: nat, x: string)
    requires StrictlySorted(xs) && p <= |xs|
    requires forall i :: 0 <= i < p ==> Leq(xs[i], x) && xs[i] != x
    requires forall i :: p <= i < |xs| ==> Leq(x, xs[i]) && x != xs[i]
    ensures var r := xs[..p] + [x] + xs[p..]; StrictlySorted(r) && Members(r) == Members(xs) + {x}
  {
    var r := xs[..p] + [x] + xs[p..];
    forall i, j | 0 <= i < j < |r| ensures Leq(r[i], r[j]) && r[i] != r[j] {
      assert r[i] == if i < p then xs[i] else if i == p then x else xs[i - 1];
      assert r[j] == if j < p then xs[j] else if j == p then x else xs[j - 1];
    }
    assert xs == xs[..p] + xs[p..];
    forall y ensures y in r <==> y in xs || y == x {
    }
  }

  lemma BeyondStaysBeyond(xs: seq<string>, p: nat, i: nat, x: string)
    requires StrictlySorted(xs) && p <= i < |xs| && Leq(x, xs[p]) && x != xs[p]
    ensures Leq(x, xs[i]) && x != xs[i]
  {
    if p < i {
      LeqTrans(x, xs[p], xs[i]);
      if x == xs[i] {
        LeqAntisym(xs[p], x);
      }
    }
  }

  /** The members of a list, sorted and without repetition. */
  method SortDedup(xs: seq<string>) returns (r: seq<string>)
    ensures StrictlySorted(r) && Members(r) == Members(xs)
  {
    r := [];
    for i := 0 to |xs|
      invariant StrictlySorted(r) && Members(r) == Members(xs[..i])
    {
      r := InsertSorted(r, xs[i]);
      assert xs[..i + 1] == xs[..i] + [xs[i]];
    }
    assert xs[..|xs|] == xs;
  }

  /** The members of a set, sorted. */
  method SortSet(s: set<string>) returns (r: seq<string>)
    ensures StrictlySorted(r) && Members(r) == s
  {
    r := [];
    var rest := s;
    while rest != {}
      invariant rest <= s && StrictlySorted(r) && Members(r) == s - rest
      decreases |rest|
    {
      var x :| x in rest;
      r := InsertSorted(r, x);
      rest := rest - {x};
    }
  }
}
