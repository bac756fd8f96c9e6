/** Helper combinators for single-argument predicates, as provided by the
    `Predicates` class of data4j (fr.leturc.data4j.function).

    A Java `Predicate<T>` becomes a total Dafny function `T -> bool`, a
    `Function<T, U>` mapper becomes `T -> U`, and both the `Iterable` and the
    varargs inputs of `and` / `or` become a `seq<T -> bool>` whose order is the
    iteration order. */
module Predicates {

  // ---------------------------------------------------------------------------
  // compose
  // ---------------------------------------------------------------------------

  /** `compose(mapper, test)`: the predicate that tests what the mapper
      returns for its argument. */
  function Compose<T(!new), U>(mapper: T -> U, test: U -> bool): (r: T -> bool)
    ensures forall t :: r(t) == test(mapper(t))
  {
    t => test(mapper(t))
  }

  // ---------------------------------------------------------------------------
  // Reference semantics
  // ---------------------------------------------------------------------------

  /** Some predicate of the list holds on `t`. */
  ghost predicate SomeHolds<T(!new)>(ps: seq<T -> bool>, t: T) {
    exists i :: 0 <= i < |ps| && ps[i](t)
  }

  /** Every predicate of the list holds on `t`: the semantics the doc comment
      of `and` announces. */
  ghost predicate AllHold<T(!new)>(ps: seq<T -> bool>, t: T) {
    forall i :: 0 <= i < |ps| ==> ps[i](t)
  }

  // ---------------------------------------------------------------------------
  // and
  // ---------------------------------------------------------------------------

  /** The for-each loop of the lambda returned by `and(Iterable)`: return true
      at the first predicate that holds, false once the list is exhausted. */
  function AndLoop<T(!new)>(ps: seq<T -> bool>, t: T): (r: bool)
    ensures r <==> SomeHolds(ps, t)
    decreases |ps|
  {
    if ps == [] then false
    else if ps[0](t) then true
    else
      var rest := AndLoop(ps[1..], t);
      assert forall i :: 1 <= i < |ps| ==> ps[i] == ps[1..][i - 1];
      rest
  }

  /** `and(Iterable)`: as written, the combined predicate holds exactly when
      SOME predicate of the list holds (not all of them). */
  function And<T(!new)>(ps: seq<T -> bool>): (r: T -> bool)
    ensures forall t :: r(t) <==> SomeHolds(ps, t)
  {
    t => AndLoop(ps, t)
  }

  /** `and(Predicate...)`: the varargs overload hands the arguments, in order,
      to `and(Iterable)`. */
  function AndVarargs<T(!new)>(ps: seq<T -> bool>): (r: T -> bool)
    ensures forall t :: r(t) <==> SomeHolds(ps, t)
  {
    And(ps)
  }

  // ---------------------------------------------------------------------------
  // or
  // ---------------------------------------------------------------------------

  /** The for-each loop of the lambda returned by `or(Iterable)`, a separate
      copy of the loop of `and` in the source. What it computes is established
      by `AndLoopIsOrLoop`. */
  function OrLoop<T(!new)>(ps: seq<T -> bool>, t: T): (r: bool)
    decreases |ps|
  {
    if ps == [] then false
    else if ps[0](t) then true
    else OrLoop(ps[1..], t)
  }

  /** `or(Iterable)`: the combined predicate holds exactly when some predicate
      of the list holds. */
  function Or<T(!new)>(ps: seq<T -> bool>): (r: T -> bool)
    ensures forall t :: r(t) <==> SomeHolds(ps, t)
  {
    OrLoopFindsAny(ps);
    t => OrLoop(ps, t)
  }

  /** `or(Predicate...)`: the varargs overload hands the arguments, in order,
      to `or(Iterable)`. */
  function OrVarargs<T(!new)>(ps: seq<T -> bool>): (r: T -> bool)
    ensures forall t :: r(t) <==> SomeHolds(ps, t)
  {
    Or(ps)
  }

  // ---------------------------------------------------------------------------
  // Properties of and / or
  // ---------------------------------------------------------------------------

  /** Both combinators of the empty list are false everywhere: the loop body
      never runs and the fall-through returns false. */
  lemma EmptyIsFalse<T(!new)>(t: T)
    ensures !And([])(t) && !Or([])(t)
    ensures !AndVarargs([])(t) && !OrVarargs([])(t)
  {
  }

  /** `and` and `or` are the same combinator: their loops agree on every list
      and every input. */
  lemma {:induction false} AndLoopIsOrLoop<T(!new)>(ps: seq<T -> bool>, t: T)
    ensures AndLoop(ps, t) == OrLoop(ps, t)
    decreases |ps|
  {
    if ps != [] && !ps[0](t) {
      AndLoopIsOrLoop(ps[1..], t);
    }
  }

  /** The loop of `or` returns true exactly when some predicate holds, on
      every input. */
  lemma OrLoopFindsAny<T(!new)>(ps: seq<T -> bool>)
    ensures forall t :: OrLoop(ps, t) <==> SomeHolds(ps, t)
  {
    forall t {
      AndLoopIsOrLoop(ps, t);
    }
  }

  lemma AndIsOr<T(!new)>(ps: seq<T -> bool>, t: T)
    ensures And(ps)(t) == Or(ps)(t)
    ensures AndVarargs(ps)(t) == OrVarargs(ps)(t)
  {
  }

  /** Only the multiset of predicates matters: reordering the list never
      changes the answer. */
  lemma AndIgnoresOrder<T(!new)>(ps: seq<T -> bool>, qs: seq<T -> bool>, t: T)
    requires multiset(ps) == multiset(qs)
    ensures And(ps)(t) == And(qs)(t)
    ensures Or(ps)(t) == Or(qs)(t)
  {
    SomeHoldsOfSubset(ps, qs, t);
    SomeHoldsOfSubset(qs, ps, t);
  }

  /** If every predicate of `ps` also appears in `qs`, a witness for `ps` is
      one for `qs`. */
  lemma SomeHoldsOfSubset<T(!new)>(ps: seq<T -> bool>, qs: seq<T -> bool>, t: T)
    requires multiset(ps) <= multiset(qs)
    ensures SomeHolds(ps, t) ==> SomeHolds(qs, t)
  {
    if SomeHolds(ps, t) {
      var i :| 0 <= i < |ps| && ps[i](t);
      assert ps[i] in multiset(ps);
      assert ps[i] in qs;
      var j :| 0 <= j < |qs| && qs[j] == ps[i];
      assert qs[j](t);
    }
  }

  /** Swapping two arguments of the varargs overloads, as the tests do. */
  lemma AndOfPairCommutes<T(!new)>(p: T -> bool, q: T -> bool, t: T)
    ensures AndVarargs([p, q])(t) == AndVarargs([q, p])(t)
    ensures OrVarargs([p, q])(t) == OrVarargs([q, p])(t)
  {
  }

  /** Combining a concatenation is the disjunction of the two halves. */
  lemma AndOfConcat<T(!new)>(ps: seq<T -> bool>, qs: seq<T -> bool>, t: T)
    ensures And(ps + qs)(t) == (And(ps)(t) || And(qs)(t))
  {
    if And(ps + qs)(t) {
      var i :| 0 <= i < |ps + qs| && (ps + qs)[i](t);
      if i >= |ps| {
        assert qs[i - |ps|](t);
      }
    }
    if And(ps)(t) {
      var i :| 0 <= i < |ps| && ps[i](t);
      assert (ps + qs)[i](t);
    }
    if And(qs)(t) {
      var j :| 0 <= j < |qs| && qs[j](t);
      assert (ps + qs)[|ps| + j](t);
    }
  }

  /** Mapping the input first commutes with combining: testing `and(ps)` on
      the mapped value is `and` of the composed predicates. */
  lemma ComposeDistributesOverAnd<T(!new), U(!new)>(mapper: T -> U, ps: seq<U -> bool>, t: T)
    ensures Compose(mapper, And(ps))(t)
         == And(seq(|ps|, i requires 0 <= i < |ps| => Compose(mapper, ps[i])))(t)
  {
    var qs := seq(|ps|, i requires 0 <= i < |ps| => Compose(mapper, ps[i]));
    if And(qs)(t) {
      var i :| 0 <= i < |qs| && qs[i](t);
      assert ps[i](mapper(t));
    }
    if And(ps)(mapper(t)) {
      var i :| 0 <= i < |ps| && ps[i](mapper(t));
      assert qs[i](t);
    }
  }

  // ---------------------------------------------------------------------------
  // The loop, step by step
  // ---------------------------------------------------------------------------

  /** The for-each loop shared by the lambdas of `and` and `or`, run as a
      loop: `found` says whether it returned true, and `k` is the index of the
      predicate that made it return (every earlier one was false). */
  method FirstHolding<T(!new)>(ps: seq<T -> bool>, t: T) returns (found: bool, k: nat)
    ensures found ==> k < |ps| && ps[k](t)
    ensures !found ==> k == |ps|
    ensures forall j :: 0 <= j < k ==> !ps[j](t)
    ensures found == And(ps)(t) && found == Or(ps)(t)
  {
    k := 0;
    while k < |ps|
      invariant k <= |ps|
      invariant forall j :: 0 <= j < k ==> !ps[j](t)
    {
      if ps[k](t) {
        return true, k;
      }
      k := k + 1;
    }
    return false, k;
  }

  // ---------------------------------------------------------------------------
  // The documented semantics of `and`
  // ---------------------------------------------------------------------------

  /** The loop `and` would need to meet its doc comment: return false at the
      first predicate that fails, true once the list is exhausted. */
  function AllOfLoop<T(!new)>(ps: seq<T -> bool>, t: T): (r: bool)
    ensures r <==> AllHold(ps, t)
    decreases |ps|
  {
    if ps == [] then true
    else if !ps[0](t) then false
    else
      var rest := AllOfLoop(ps[1..], t);
      assert forall i :: 1 <= i < |ps| ==> ps[i] == ps[1..][i - 1];
      rest
  }

  /** `and` as documented: true when all input predicates are true. */
  function AllOf<T(!new)>(ps: seq<T -> bool>): (r: T -> bool)
    ensures forall t :: r(t) <==> AllHold(ps, t)
  {
    t => AllOfLoop(ps, t)
  }

  /** The documented `and` agrees with the written one on a single predicate. */
  lemma AllOfMatchesAndOnSingleton<T(!new)>(p: T -> bool, t: T)
    ensures AllOf([p])(t) == And([p])(t) == p(t)
  {
  }

  /** The written and the documented `and` agree on `t` exactly when the list
      is non-empty and its predicates all give the same answer on `t`. */
  lemma AndMatchesAllOfExactlyWhenUnanimous<T(!new)>(ps: seq<T -> bool>, t: T)
    ensures And(ps)(t) == AllOf(ps)(t)
        <==> |ps| > 0 && forall i, j :: 0 <= i < |ps| && 0 <= j < |ps| ==> ps[i](t) == ps[j](t)
  {
  }

  /** On the empty list the written `and` is false but the documented one is
      true. */
  lemma AndDiffersFromAllOfOnEmpty<T(!new)>(t: T)
    ensures !And([])(t) && AllOf([])(t)
  {
  }

  /** Whenever exactly one of two predicates holds, the written `and` holds
      and the documented one does not. */
  lemma AndDiffersFromAllOfOnMixedPair<T(!new)>(p: T -> bool, q: T -> bool, t: T)
    requires p(t) && !q(t)
    ensures And([p, q])(t) && !AllOf([p, q])(t)
    ensures And([q, p])(t) && !AllOf([q, p])(t)
  {
    assert [p, q][0](t) && ![p, q][1](t);
    assert [q, p][1](t) && ![q, p][0](t);
  }
}
