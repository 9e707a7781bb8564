/** Sequence vocabulary shared by the model: the part of a list up to an element,
    insertion after an element, and the sublist left when some elements are hidden. */
module Sequences {

  predicate NoDup<T(==,!new)>(xs: seq<T>) {
    forall i, j :: 0 <= i < j < |xs| ==> xs[i] != xs[j]
  }

  function Last<T(!new)>(xs: seq<T>): T
    requires xs != []
  {
    xs[|xs| - 1]
  }

  function Reverse<T(!new)>(xs: seq<T>): (r: seq<T>)
    ensures |r| == |xs|
    ensures forall x :: x in r <==> x in xs
  {
    if xs == [] then [] else Reverse(xs[1..]) + [xs[0]]
  }

  lemma {:induction false} ReverseSnoc<T(!new)>(xs: seq<T>, x: T)
    ensures Reverse(xs + [x]) == [x] + Reverse(xs)
  {
    if xs == [] {
      assert xs + [x] == [x];
      assert [x][1..] == [];
    } else {
      assert (xs + [x])[1..] == xs[1..] + [x];
      ReverseSnoc(xs[1..], x);
    }
  }

  /** The prefix of `xs` ending with the first `x`; all of `xs` when there is none. */
  function UpTo<T(==,!new)>(xs: seq<T>, x: T): (r: seq<T>) {
    if xs == [] then []
    else if xs[0] == x then [x]
    else [xs[0]] + UpTo(xs[1..], x)
  }

  /** What follows the first `x` in `xs`. */
  function Beyond<T(==,!new)>(xs: seq<T>, x: T): seq<T> {
    if xs == [] then []
    else if xs[0] == x then xs[1..]
    else Beyond(xs[1..], x)
  }

  function InsertAfter<T(==,!new)>(xs: seq<T>, x: T, n: T): seq<T> {
    UpTo(xs, x) + [n] + Beyond(xs, x)
  }

  /** The elements of `xs` outside `hidden`, in order. */
  function Shown<T(==,!new)>(xs: seq<T>, hidden: set<T>): (r: seq<T>)
    ensures forall x :: x in r <==> x in xs && x !in hidden
  {
    if xs == [] then []
    else if xs[0] in hidden then Shown(xs[1..], hidden)
    else [xs[0]] + Shown(xs[1..], hidden)
  }

  lemma {:induction false} SplitAt<T(!new)>(xs: seq<T>, x: T)
    ensures UpTo(xs, x) + Beyond(xs, x) == xs
    ensures x in xs ==> UpTo(xs, x) != [] && Last(UpTo(xs, x)) == x
  {
    if xs != [] && xs[0] != x {
      SplitAt(xs[1..], x);
      calc {
        UpTo(xs, x) + Beyond(xs, x);
        [xs[0]] + (UpTo(xs[1..], x) + Beyond(xs[1..], x));
        xs;
      }
    }
  }

  lemma {:induction false} UpToConcat<T(!new)>(xs: seq<T>, ys: seq<T>, x: T)
    ensures x in xs ==> UpTo(xs + ys, x) == UpTo(xs, x) && Beyond(xs + ys, x) == Beyond(xs, x) + ys
    ensures x !in xs ==> UpTo(xs + ys, x) == xs + UpTo(ys, x) && Beyond(xs + ys, x) == Beyond(ys, x)
  {
    if xs == [] {
      assert xs + ys == ys;
    } else {
      assert (xs + ys)[1..] == xs[1..] + ys;
      if xs[0] != x {
        UpToConcat(xs[1..], ys, x);
      }
    }
  }

  lemma InsertAfterConcat<T(!new)>(xs: seq<T>, ys: seq<T>, x: T, n: T)
    ensures x in xs ==> InsertAfter(xs + ys, x, n) == InsertAfter(xs, x, n) + ys
    ensures x !in xs ==> InsertAfter(xs + ys, x, n) == xs + InsertAfter(ys, x, n)
  {
    UpToConcat(xs, ys, x);
  }

  lemma InsertAfterMembers<T(!new)>(xs: seq<T>, x: T, n: T)
    ensures forall y :: y in InsertAfter(xs, x, n) <==> y in xs || y == n
    ensures |InsertAfter(xs, x, n)| == |xs| + 1
  {
    SplitAt(xs, x);
    var u, v := UpTo(xs, x), Beyond(xs, x);
    assert forall y :: y in xs <==> y in u || y in v by {
      assert xs == u + v;
    }
  }

  lemma InsertAfterNoDup<T(!new)>(xs: seq<T>, x: T, n: T)
    requires NoDup(xs) && n !in xs
    ensures NoDup(InsertAfter(xs, x, n))
  {
    SplitAt(xs, x);
    var u, v := UpTo(xs, x), Beyond(xs, x);
    assert xs == u + v;
    forall i | 0 <= i < |u| ensures u[i] == xs[i] {}
    forall i | 0 <= i < |v| ensures v[i] == xs[|u| + i] {}
  }

  lemma {:induction false} ShownConcat<T(!new)>(xs: seq<T>, ys: seq<T>, hidden: set<T>)
    ensures Shown(xs + ys, hidden) == Shown(xs, hidden) + Shown(ys, hidden)
  {
    if xs == [] {
      assert xs + ys == ys;
    } else {
      assert (xs + ys)[1..] == xs[1..] + ys;
      ShownConcat(xs[1..], ys, hidden);
    }
  }

  lemma {:induction false} ShownAll<T(!new)>(xs: seq<T>, hidden: set<T>)
    requires forall x :: x in xs ==> x !in hidden
    ensures Shown(xs, hidden) == xs
  {
    if xs != [] {
      ShownAll(xs[1..], hidden);
    }
  }

  lemma {:induction false} ShownNone<T(!new)>(xs: seq<T>, hidden: set<T>)
    requires forall x :: x in xs ==> x in hidden
    ensures Shown(xs, hidden) == []
  {
    if xs != [] {
      ShownNone(xs[1..], hidden);
    }
  }

  /** Hiding more elements only filters what is still shown. */
  lemma {:induction false} ShownMore<T(!new)>(xs: seq<T>, hidden: set<T>, more: set<T>)
    ensures Shown(xs, hidden + more) == Shown(Shown(xs, hidden), more)
  {
    if xs != [] {
      ShownMore(xs[1..], hidden, more);
      if xs[0] !in hidden {
        assert Shown(xs, hidden)[1..] == Shown(xs[1..], hidden);
      }
    }
  }

  lemma {:induction false} ShownNoDup<T(!new)>(xs: seq<T>, hidden: set<T>)
    requires NoDup(xs)
    ensures NoDup(Shown(xs, hidden))
  {
    if xs != [] {
      assert xs[0] !in xs[1..];
      ShownNoDup(xs[1..], hidden);
    }
  }

  /** Cutting at a shown element and hiding commute. */
  lemma {:induction false} ShownUpTo<T(!new)>(xs: seq<T>, hidden: set<T>, x: T)
    requires x !in hidden
    ensures Shown(UpTo(xs, x), hidden) == UpTo(Shown(xs, hidden), x)
    ensures Shown(Beyond(xs, x), hidden) == Beyond(Shown(xs, hidden), x)
  {
    if xs != [] && xs[0] != x {
      ShownUpTo(xs[1..], hidden, x);
      if xs[0] !in hidden {
        assert Shown(xs, hidden)[1..] == Shown(xs[1..], hidden);
      }
    }
  }

  lemma ShownInsertAfter<T(!new)>(xs: seq<T>, hidden: set<T>, x: T, n: T)
    requires x !in hidden && n !in hidden
    ensures Shown(InsertAfter(xs, x, n), hidden) == InsertAfter(Shown(xs, hidden), x, n)
  {
    var u, v := UpTo(xs, x), Beyond(xs, x);
    ShownConcat(u + [n], v, hidden);
    ShownConcat(u, [n], hidden);
    ShownUpTo(xs, hidden, x);
  }

  lemma StepOver<T(!new)>(h: T, ys: seq<T>, x: T, n: T)
    requires h != x
    ensures UpTo([h] + ys, x) == [h] + UpTo(ys, x) && Beyond([h] + ys, x) == Beyond(ys, x)
    ensures InsertAfter([h] + ys, x, n) == [h] + InsertAfter(ys, x, n)
  {
    assert ([h] + ys)[1..] == ys;
  }

  lemma StepOn<T(!new)>(h: T, ys: seq<T>, n: T)
    ensures UpTo([h] + ys, h) == [h] && Beyond([h] + ys, h) == ys
    ensures InsertAfter([h] + ys, h, n) == [h, n] + ys
  {
    assert ([h] + ys)[1..] == ys;
  }

  /** Inserting after one element and cutting at another, older one. */
  lemma {:induction false} UpToInsertAfter<T(!new)>(xs: seq<T>, a: T, x: T, n: T)
    requires a in xs && x in xs && a != x && n != a
    ensures x in UpTo(xs, a) ==>
              UpTo(InsertAfter(xs, x, n), a) == InsertAfter(UpTo(xs, a), x, n) &&
              Beyond(InsertAfter(xs, x, n), a) == Beyond(xs, a)
    ensures x !in UpTo(xs, a) ==>
              x in Beyond(xs, a) &&
              UpTo(InsertAfter(xs, x, n), a) == UpTo(xs, a) &&
              Beyond(InsertAfter(xs, x, n), a) == InsertAfter(Beyond(xs, a), x, n)
  {
    hide UpTo, Beyond, InsertAfter;
    var h, ys := xs[0], xs[1..];
    assert xs == [h] + ys;
    if h == a {
      StepOver(a, ys, x, n);
      StepOn(a, ys, n);
      StepOn(a, InsertAfter(ys, x, n), n);
    } else if h == x {
      StepOn(x, ys, n);
      assert [x, n] + ys == [x] + ([n] + ys);
      StepOver(x, ys, a, n);
      StepOver(x, [n] + ys, a, n);
      StepOver(n, ys, a, n);
      StepOn(x, UpTo(ys, a), n);
      assert [x, n] + UpTo(ys, a) == [x] + ([n] + UpTo(ys, a));
    } else {
      UpToInsertAfter(ys, a, x, n);
      StepOver(h, ys, a, n);
      StepOver(h, ys, x, n);
      StepOver(h, InsertAfter(ys, x, n), a, n);
      StepOver(h, UpTo(ys, a), x, n);
    }
  }

  lemma UpToInserted<T(!new)>(xs: seq<T>, x: T, n: T)
    requires n !in xs
    ensures UpTo(InsertAfter(xs, x, n), n) == UpTo(xs, x) + [n]
    ensures Beyond(InsertAfter(xs, x, n), n) == Beyond(xs, x)
  {
    SplitAt(xs, x);
    var u, v := UpTo(xs, x), Beyond(xs, x);
    assert n !in u by {
      assert xs == u + v;
    }
    assert u + [n] + v == u + ([n] + v);
    UpToConcat(u, [n] + v, n);
  }

  lemma {:induction false} UpToLastOfNoDup<T(!new)>(xs: seq<T>)
    requires xs != [] && NoDup(xs)
    ensures UpTo(xs, Last(xs)) == xs && Beyond(xs, Last(xs)) == []
  {
    if |xs| > 1 {
      assert xs[0] != Last(xs);
      UpToLastOfNoDup(xs[1..]);
    }
  }

  lemma InsertAfterLast<T(!new)>(xs: seq<T>, x: T, n: T)
    requires NoDup(xs) && x in xs
    ensures Last(InsertAfter(xs, x, n)) == if x == Last(xs) then n else Last(xs)
  {
    SplitAt(xs, x);
    var u, v := UpTo(xs, x), Beyond(xs, x);
    assert xs == u + v;
    if x == Last(xs) {
      UpToLastOfNoDup(xs);
    } else {
      assert v != [];
    }
  }

  lemma {:induction false} UpToSelf<T(!new)>(xs: seq<T>, x: T)
    ensures UpTo(UpTo(xs, x), x) == UpTo(xs, x)
    ensures Beyond(UpTo(xs, x), x) == []
  {
    if xs != [] && xs[0] != x {
      UpToSelf(xs[1..], x);
      assert UpTo(xs, x)[1..] == UpTo(xs[1..], x);
    }
  }
}
