/**
 * Variadic-template demo: `sum` expands a parameter pack recursively. The
 * pack is a non-empty sequence of arguments and `+` is a parameter, so the
 * same definition stands for every `T` the template is instantiated with.
 */
module VariadicTemplates {

  /**
   * `sum(t)` returns `t`; `sum(first, rest...)` returns
   * `first + sum(rest...)`. The result is `a0 + (a1 + (... + an))`.
   */
  function Sum<T>(plus: (T, T) -> T, args: seq<T>): T
    requires |args| > 0
  {
    if |args| == 1 then args[0] else plus(args[0], Sum(plus, args[1..]))
  }

  /** `plus` may be regrouped freely. */
  ghost predicate Associative<T(!new)>(plus: (T, T) -> T) {
    forall a, b, c :: plus(plus(a, b), c) == plus(a, plus(b, c))
  }

  /** The reference order of combination, `((a0 + a1) + ...) + an`. */
  function LeftFold<T>(plus: (T, T) -> T, args: seq<T>): T
    requires |args| > 0
  {
    if |args| == 1 then args[0] else plus(LeftFold(plus, args[..|args| - 1]), args[|args| - 1])
  }

  /** The single-argument overload returns its argument. */
  lemma SumSingle<T>(plus: (T, T) -> T, t: T)
    ensures Sum(plus, [t]) == t
  {
  }

  /** The recursive overload peels off the first argument and keeps the rest in order. */
  lemma SumExpands<T>(plus: (T, T) -> T, first: T, rest: seq<T>)
    requires |rest| > 0
    ensures Sum(plus, [first] + rest) == plus(first, Sum(plus, rest))
  {
    assert ([first] + rest)[1..] == rest;
  }

  /** Left-folding a sequence with a first element split off, under associativity. */
  lemma {:induction false} LeftFoldCons<T(!new)>(plus: (T, T) -> T, x: T, ys: seq<T>)
    requires Associative(plus) && |ys| > 0
    ensures LeftFold(plus, [x] + ys) == plus(x, LeftFold(plus, ys))
  {
    var xs := [x] + ys;
    if |ys| == 1 {
      assert xs[..|xs| - 1] == [x];
    } else {
      assert xs[..|xs| - 1] == [x] + ys[..|ys| - 1];
      LeftFoldCons(plus, x, ys[..|ys| - 1]);
      assert plus(plus(x, LeftFold(plus, ys[..|ys| - 1])), ys[|ys| - 1])
          == plus(x, plus(LeftFold(plus, ys[..|ys| - 1]), ys[|ys| - 1]));
    }
  }

  /** For an associative `+`, the template's right-nested expansion equals the left fold. */
  lemma {:induction false} SumIsLeftFold<T(!new)>(plus: (T, T) -> T, args: seq<T>)
    requires Associative(plus) && |args| > 0
    ensures Sum(plus, args) == LeftFold(plus, args)
  {
    if |args| > 1 {
      SumIsLeftFold(plus, args[1..]);
      LeftFoldCons(plus, args[0], args[1..]);
      assert [args[0]] + args[1..] == args;
    }
  }

  /** For an associative `+`, summing a concatenation sums each part, parts kept in order. */
  lemma {:induction false} SumAppend<T(!new)>(plus: (T, T) -> T, xs: seq<T>, ys: seq<T>)
    requires Associative(plus) && |xs| > 0 && |ys| > 0
    ensures Sum(plus, xs + ys) == plus(Sum(plus, xs), Sum(plus, ys))
  {
    if |xs| == 1 {
      assert (xs + ys)[1..] == ys;
    } else {
      assert (xs + ys)[1..] == xs[1..] + ys;
      SumAppend(plus, xs[1..], ys);
    }
  }

  // ---------------------------------------------------------------------
  // The `int` instantiation used by `main`

  function Add(a: int, b: int): int { a + b }

  /** The ordinary sum of a sequence of integers, taken from the back. */
  function SeqSum(xs: seq<int>): int {
    if xs == [] then 0 else SeqSum(xs[..|xs| - 1]) + xs[|xs| - 1]
  }

  lemma {:induction false} LeftFoldAddIsSeqSum(xs: seq<int>)
    requires |xs| > 0
    ensures LeftFold(Add, xs) == SeqSum(xs)
  {
    if |xs| > 1 {
      LeftFoldAddIsSeqSum(xs[..|xs| - 1]);
    } else {
      assert xs[..0] == [];
    }
  }

  /** Over a non-empty `int` pack, `sum` is the ordinary sum of the arguments. */
  lemma SumOfIntsIsSeqSum(xs: seq<int>)
    requires |xs| > 0
    ensures Sum(Add, xs) == SeqSum(xs)
  {
    SumIsLeftFold(Add, xs);
    LeftFoldAddIsSeqSum(xs);
  }

  /** `main` prints `sum(1, 2, 3, 4)`. */
  lemma SumMainExample()
    ensures Sum(Add, [1, 2, 3, 4]) == 10
  {
  }

  // ---------------------------------------------------------------------
  // A non-commutative instantiation: the fold keeps argument order

  function Concat(a: string, b: string): string { a + b }

  /** With string concatenation as `+`, `sum` joins its arguments left to right. */
  lemma {:induction false} SumOfStringsJoinsInOrder(xs: string, ys: string, zs: string)
    ensures Sum(Concat, [xs, ys, zs]) == xs + ys + zs
  {
    assert Sum(Concat, [ys, zs]) == ys + zs by {
      assert [ys, zs][1..] == [zs];
    }
    assert [xs, ys, zs][1..] == [ys, zs];
  }
}
