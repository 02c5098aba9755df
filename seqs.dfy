/**
 * Sequence shapes shared by the scanner modules: keeping the present values of a
 * sequence of optional outcomes (Python's `if r: results.append(r)` loops and filtering
 * comprehensions), and reordering a sequence by a permutation of its indices (the
 * order in which concurrent workers happen to finish).
 */
module Seqs {
  import opened Wrappers

  /** The present values of `s`, in order. */
  function Somes<T>(s: seq<Option<T>>): (r: seq<T>)
    ensures |r| <= |s|
  {
    if s == [] then []
    else Somes(s[..|s| - 1]) + (if s[|s| - 1].Some? then [s[|s| - 1].value] else [])
  }

  /**
   * The values before the first absent one: what a loop that raises at the first
   * malformed element has processed.
   */
  function TakeWhileSome<T>(s: seq<Option<T>>): (r: seq<T>)
    ensures |r| <= |s|
    ensures forall i :: 0 <= i < |r| ==> s[i] == Some(r[i])
    ensures |r| < |s| ==> s[|r|].None?
  {
    if s == [] || s[0].None? then [] else [s[0].value] + TakeWhileSome(s[1..])
  }

  /** The indices of the present values of `s`, in order. */
  function SomePositions<T>(s: seq<Option<T>>): seq<nat> {
    if s == [] then []
    else SomePositions(s[..|s| - 1]) + (if s[|s| - 1].Some? then [|s| - 1] else [])
  }

  /**
   * `Somes(s)` keeps exactly the present values of `s`, in their original order: its
   * `k`-th element is the value at the `k`-th present position, the positions strictly
   * increase, and every present position is among them.
   */
  lemma {:induction false} SomesSpec<T>(s: seq<Option<T>>)
    ensures |SomePositions(s)| == |Somes(s)|
    ensures forall k :: 0 <= k < |SomePositions(s)| ==>
              SomePositions(s)[k] < |s| && s[SomePositions(s)[k]] == Some(Somes(s)[k])
    ensures forall k, l :: 0 <= k < l < |SomePositions(s)| ==>
              SomePositions(s)[k] < SomePositions(s)[l]
    ensures forall i :: 0 <= i < |s| && s[i].Some? ==> i in SomePositions(s)
  {
    if s != [] {
      var init := s[..|s| - 1];
      SomesSpec(init);
      assert forall i :: 0 <= i < |init| ==> init[i] == s[i];
    }
  }

  lemma {:induction false} SomesSnoc<T>(a: seq<Option<T>>, x: Option<T>)
    ensures Somes(a + [x]) == Somes(a) + (if x.Some? then [x.value] else [])
  {
    assert (a + [x])[..|a|] == a;
  }

  lemma {:induction false} SomesAppend<T>(a: seq<Option<T>>, b: seq<Option<T>>)
    ensures Somes(a + b) == Somes(a) + Somes(b)
    decreases |b|
  {
    if b == [] {
      assert a + b == a;
    } else {
      var init := b[..|b| - 1];
      assert (a + b)[..|a + b| - 1] == a + init;
      SomesAppend(a, init);
    }
  }

  /** An index at which `x` occurs in `o`. */
  lemma {:induction false} IndexOf<T>(o: seq<T>, x: T) returns (k: int)
    requires x in multiset(o)
    ensures 0 <= k < |o| && o[k] == x
  {
    assert x in o;
    k :| 0 <= k < |o| && o[k] == x;
  }

  lemma {:induction false} RemoveAt<T>(o: seq<T>, k: int)
    requires 0 <= k < |o|
    ensures o == o[..k] + [o[k]] + o[k + 1..]
    ensures multiset(o[..k] + o[k + 1..]) == multiset(o) - multiset{o[k]}
  {
    assert o == o[..k] + [o[k]] + o[k + 1..];
  }

  lemma {:induction false} MultisetInsert<T>(a: seq<T>, l: seq<T>, y: seq<T>, r: seq<T>)
    requires multiset(a) == multiset(l + r)
    ensures multiset(a + y) == multiset(l + (y + r))
  {
  }

  lemma {:induction false} SomesSplit<T>(l: seq<Option<T>>, m: seq<Option<T>>, r: seq<Option<T>>)
    ensures Somes(l + m + r) == Somes(l) + (Somes(m) + Somes(r))
  {
    SomesAppend(l + m, r);
    SomesAppend(l, m);
    var a, b, c := Somes(l), Somes(m), Somes(r);
    assert a + b + c == a + (b + c);
  }

  /** A loop that stops at the first absent value has taken every value before it. */
  lemma {:induction false} TakeWhileSomeStop<T>(s: seq<Option<T>>, i: int)
    requires 0 <= i <= |TakeWhileSome(s)|
    requires !(i < |s| && s[i].Some?)
    ensures i == |TakeWhileSome(s)|
  {
  }

  /** Reordering the outcomes reorders the kept values and nothing else. */
  lemma {:induction false} SomesPermute<T>(a: seq<Option<T>>, b: seq<Option<T>>)
    requires multiset(a) == multiset(b)
    ensures multiset(Somes(a)) == multiset(Somes(b))
    decreases |a|
  {
    if a == [] {
      assert |multiset(b)| == 0;
    } else {
      var n := |a| - 1;
      var k := IndexOf(b, a[n]);
      RemoveAt(a, n);
      RemoveAt(b, k);
      var l, r := b[..k], b[k + 1..];
      assert a[..n] + a[n + 1..] == a[..n];
      SomesPermute(a[..n], l + r);
      assert a == a[..n] + [a[n]];
      SomesAppend(a[..n], [a[n]]);
      SomesSplit(l, [b[k]], r);
      SomesAppend(l, r);
      MultisetInsert(Somes(a[..n]), Somes(l), Somes([a[n]]), Somes(r));
    }
  }

  /** `[0, 1, ..., n - 1]` */
  function Indices(n: nat): seq<int> {
    seq(n, i requires 0 <= i < n => i)
  }

  /** `order` lists each index below `n` exactly once. */
  predicate IsPermutationOf(order: seq<int>, n: nat) {
    |order| == n && multiset(order) == multiset(Indices(n))
  }

  predicate InRange(order: seq<int>, n: nat) {
    forall j :: 0 <= j < |order| ==> 0 <= order[j] < n
  }

  /** The elements of `s` in the order `order` names them. */
  function Pick<T>(s: seq<T>, order: seq<int>): seq<T>
    requires InRange(order, |s|)
  {
    seq(|order|, j requires 0 <= j < |order| => s[order[j]])
  }

  lemma {:induction false} PermutationInRange(order: seq<int>, n: nat)
    requires IsPermutationOf(order, n)
    ensures InRange(order, n)
  {
    forall j | 0 <= j < |order|
      ensures 0 <= order[j] < n
    {
      assert order[j] in multiset(Indices(n));
    }
  }

  lemma {:induction false} PickSplit<T>(s: seq<T>, o: seq<int>, k: int)
    requires InRange(o, |s|) && 0 <= k < |o|
    ensures InRange(o[..k] + o[k + 1..], |s|)
    ensures Pick(s, o) == Pick(s, o[..k]) + ([s[o[k]]] + Pick(s, o[k + 1..]))
    ensures Pick(s, o[..k] + o[k + 1..]) == Pick(s, o[..k]) + Pick(s, o[k + 1..])
  {
    assert o == o[..k] + [o[k]] + o[k + 1..];
  }

  lemma {:induction false} PickLast<T>(s: seq<T>, o: seq<int>)
    requires InRange(o, |s|) && o != []
    ensures InRange(o[..|o| - 1], |s|)
    ensures Pick(s, o) == Pick(s, o[..|o| - 1]) + [s[o[|o| - 1]]]
    ensures multiset(o[..|o| - 1]) == multiset(o) - multiset{o[|o| - 1]}
  {
    assert o == o[..|o| - 1] + [o[|o| - 1]];
  }

  /** One more step of a loop that keeps the present values of `s` in the order `o` names them. */
  lemma {:induction false} SomesPickSnoc<T>(s: seq<Option<T>>, o: seq<int>, i: int)
    requires InRange(o, |s|) && 0 <= i < |o|
    ensures InRange(o[..i], |s|) && InRange(o[..i + 1], |s|)
    ensures Somes(Pick(s, o[..i + 1])) == Somes(Pick(s, o[..i])) + (if s[o[i]].Some? then [s[o[i]].value] else [])
  {
    assert Pick(s, o[..i + 1]) == Pick(s, o[..i]) + [s[o[i]]];
    SomesSnoc(Pick(s, o[..i]), s[o[i]]);
  }

  /** Picking by two orders that are permutations of each other gives permutations. */
  lemma {:induction false} PickPreserves<T>(s: seq<T>, o1: seq<int>, o2: seq<int>)
    requires InRange(o1, |s|) && InRange(o2, |s|)
    requires multiset(o1) == multiset(o2)
    ensures multiset(Pick(s, o1)) == multiset(Pick(s, o2))
    decreases |o1|
  {
    if o1 == [] {
      assert |multiset(o2)| == 0;
    } else {
      var n := |o1| - 1;
      var x := o1[n];
      var k := IndexOf(o2, x);
      PickLast(s, o1);
      RemoveAt(o2, k);
      PickSplit(s, o2, k);
      var rest2 := o2[..k] + o2[k + 1..];
      PickPreserves(s, o1[..n], rest2);
      MultisetInsert(Pick(s, o1[..n]), Pick(s, o2[..k]), [s[x]], Pick(s, o2[k + 1..]));
    }
  }

  /** Picking by a permutation of the indices yields a permutation of `s`. */
  lemma {:induction false} PickPermutes<T>(s: seq<T>, order: seq<int>)
    requires IsPermutationOf(order, |s|)
    ensures InRange(order, |s|)
    ensures multiset(Pick(s, order)) == multiset(s)
  {
    PermutationInRange(order, |s|);
    PickPreserves(s, order, Indices(|s|));
    assert Pick(s, Indices(|s|)) == s;
  }

  /**
   * Keeping the present values in the order of a permutation keeps the same values as
   * keeping them in index order, and exactly those values when the permutation is the
   * identity.
   */
  lemma {:induction false} SomesPickPermutes<T>(s: seq<Option<T>>, order: seq<int>)
    requires IsPermutationOf(order, |s|)
    ensures InRange(order, |s|)
    ensures multiset(Somes(Pick(s, order))) == multiset(Somes(s))
    ensures order == Indices(|s|) ==> Somes(Pick(s, order)) == Somes(s)
  {
    PickPermutes(s, order);
    SomesPermute(Pick(s, order), s);
    if order == Indices(|s|) {
      assert Pick(s, order) == s;
    }
  }
}
