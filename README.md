# data4j `Predicates` in Dafny

A model of the predicate combinators of data4j
(`fr.leturc.data4j.function.Predicates`), with proofs of what they compute.

The class offers three static operations:

- `compose(mapper, predicate)` returns the predicate `t -> predicate(mapper(t))`.
- `and(predicates)` runs a for-each loop over the predicates when it is tested. It returns
  true at the first predicate that holds, and false once the list is exhausted.
- `or(predicates)` has exactly the same loop.

Each of `and` and `or` has an `Iterable` overload and a varargs overload. The varargs overload
wraps its arguments with `Arrays.asList` and delegates to the `Iterable` overload.

In the model, a `Predicate<T>` is a total Dafny function `T -> bool` and a mapper is `T -> U`.
Both the `Iterable` and the varargs argument are a `seq<T -> bool>`, whose order is the
iteration order. Each for-each loop is a recursive function (`AndLoop`, `OrLoop`) that follows
the source's early return; the source writes the loop twice, and so does the model, with a
lemma that the two copies agree. `And`/`Or` return the lambda that calls that loop. The method
`FirstHolding` runs the same loop with a `while` and returns the index that stopped it.

The doc comments of `and` (Predicates.java lines 49 and 67) say the result is true when *all*
predicates are true. The code does something else: it returns true as soon as *one* predicate
holds, so `and` behaves exactly like `or`. The shipped test at PredicatesTest.java line 40
depends on that behaviour. The model follows the code, so `And` means "some predicate holds".
The documented "all" semantics is modelled separately as `AllOf`, and lemmas show where the
two disagree (see Findings).

Files:
- `Predicates.dfy` (module `Predicates`): the combinators, their semantics and their properties.
- `PredicatesTest.dfy` (module `PredicatesTest`): the scenarios of `PredicatesTest.java`, stated
  as lemmas. `"bob"::equals` is written as `Equals("bob")` and `"boby"::endsWith` as
  `IsSuffixOf("boby")`.

## Model

| member | source | states |
|---|---|---|
| Predicates.Compose | src/main/java/fr/leturc/data4j/function/Predicates.java:44-46 | the composed predicate holds on `t` exactly when the predicate holds on `mapper(t)`, for every `t` |
| Predicates.AndLoop | src/main/java/fr/leturc/data4j/function/Predicates.java:56-63 | the for-each loop of `and` returns true exactly when some predicate of the list holds on `t` (proved from the recursive calls' contracts) |
| Predicates.And | src/main/java/fr/leturc/data4j/function/Predicates.java:55-64 | `and(Iterable)` is true on `t` exactly when SOME `ps[i](t)` holds, despite its doc comment |
| Predicates.AndVarargs | src/main/java/fr/leturc/data4j/function/Predicates.java:73-76 | the varargs `and` gives the same "some predicate holds" answer as the `Iterable` overload on the same list |
| Predicates.OrLoop | src/main/java/fr/leturc/data4j/function/Predicates.java:86-93 | the loop of `or`, a second copy of the loop of `and`; it has no contract of its own, and `AndLoopIsOrLoop` and `OrLoopFindsAny` state what it computes |
| Predicates.OrLoopFindsAny | src/main/java/fr/leturc/data4j/function/Predicates.java:86-93 | the for-each loop of `or` returns true exactly when some predicate of the list holds on `t`, for every `t` (from its agreement with the loop of `and`) |
| Predicates.Or | src/main/java/fr/leturc/data4j/function/Predicates.java:85-94 | `or(Iterable)` is true on `t` exactly when some `ps[i](t)` holds |
| Predicates.OrVarargs | src/main/java/fr/leturc/data4j/function/Predicates.java:103-106 | the varargs `or` gives the same answer as the `Iterable` overload on the same list |
| Predicates.EmptyIsFalse | src/main/java/fr/leturc/data4j/function/Predicates.java:57-62 | `and` and `or` of the empty list, in both overloads, are false on every input |
| Predicates.AndLoopIsOrLoop | src/main/java/fr/leturc/data4j/function/Predicates.java:56-63 | the loops of `and` and `or` return the same value on every list and input (induction on the list) |
| Predicates.AndIsOr | src/main/java/fr/leturc/data4j/function/Predicates.java:85-94 | `and` and `or` agree on every list and input, for both overloads |
| Predicates.AndIgnoresOrder | src/test/java/fr/leturc/data4j/function/PredicatesTest.java:40-51 | any two lists with the same multiset of predicates (any permutation) give the same `and` and the same `or` |
| Predicates.AndOfPairCommutes | src/test/java/fr/leturc/data4j/function/PredicatesTest.java:40-51 | swapping the two varargs arguments never changes `and` or `or`, as every test pair checks |
| Predicates.AndOfConcat | src/main/java/fr/leturc/data4j/function/Predicates.java:57-62 | `and` of a concatenation holds exactly when `and` of either half holds |
| Predicates.ComposeDistributesOverAnd | src/main/java/fr/leturc/data4j/function/Predicates.java:44-64 | testing `and(ps)` on `mapper(t)` equals testing `and` of the predicates each composed with `mapper` on `t` |
| Predicates.FirstHolding | src/main/java/fr/leturc/data4j/function/Predicates.java:57-61 | the loop stops at an index whose predicate holds, every earlier predicate was false, it runs to the end only when none holds, and whether it found one is the value of `and` and of `or` |
| Predicates.AllOfLoop | src/main/java/fr/leturc/data4j/function/Predicates.java:48-49 | a loop that meets the doc comment's "all" promise: it returns true exactly when every predicate holds |
| Predicates.AllOf | src/main/java/fr/leturc/data4j/function/Predicates.java:66-67 | `and` as documented: true on `t` exactly when every `ps[i](t)` holds |
| Predicates.AllOfMatchesAndOnSingleton | src/main/java/fr/leturc/data4j/function/Predicates.java:48-64 | on a one-predicate list, the written and the documented `and` both equal that predicate |
| Predicates.AndMatchesAllOfExactlyWhenUnanimous | src/main/java/fr/leturc/data4j/function/Predicates.java:48-64 | the written and the documented `and` agree on `t` exactly when the list is non-empty and all its predicates give the same answer on `t` |
| Predicates.AndDiffersFromAllOfOnEmpty | src/main/java/fr/leturc/data4j/function/Predicates.java:48-64 | on the empty list, the written `and` is false while the documented one is true |
| Predicates.AndDiffersFromAllOfOnMixedPair | src/main/java/fr/leturc/data4j/function/Predicates.java:48-64 | when one of two predicates holds and the other fails, the written `and` is true and the documented one false, in either order |
| PredicatesTest.ComposeLengthIsThree | src/test/java/fr/leturc/data4j/function/PredicatesTest.java:34-35 | composing `String::length` with `isEqual(3)` accepts "bob" (and rejects "boby") |
| PredicatesTest.AndArrayScenarios | src/test/java/fr/leturc/data4j/function/PredicatesTest.java:39-44 | the four `testAndArray` outcomes: true for `"bob"::equals` with `"boby"::endsWith` on "bob" in both orders, false for `"bob"::equals` with `"jack"::equals` on "pete" in both orders |
| PredicatesTest.OrArrayScenarios | src/test/java/fr/leturc/data4j/function/PredicatesTest.java:47-52 | the four `testOrArray` outcomes on "bob" and "pete" |
| PredicatesTest.AndArrayContradictsDocumentation | src/test/java/fr/leturc/data4j/function/PredicatesTest.java:40 | on the first test input, the written `and` is true while the documented "all" combinator is false, because "boby" does not end with "bob" |

## Findings

| source | as written | input that shows it | evidently intended | confidence | as-written member | corrected member |
|---|---|---|---|---|---|---|
| src/main/java/fr/leturc/data4j/function/Predicates.java:55-64 | `and` returns true at the first predicate that holds and false otherwise, the same loop as `or` | `and("bob"::equals, "boby"::endsWith)` tested on "bob" is true although "boby" does not end with "bob"; `and()` of no predicates is false | true exactly when every predicate holds, as the doc comments at lines 49 and 67 say (so true on the empty list) | medium, not executed; the shipped test at PredicatesTest.java:40 asserts the as-written result | Predicates.AndDiffersFromAllOfOnMixedPair | Predicates.AllOf |

`Predicates.And` keeps the as-written behaviour, because the shipped tests require it.
`AllOf` is the corrected definition, proved to mean "every predicate holds".
`AndDiffersFromAllOfOnMixedPair`, `AndDiffersFromAllOfOnEmpty` and
`PredicatesTest.AndArrayContradictsDocumentation` exhibit the inputs on which the two differ.

## Left out

- Null arguments, which Dafny function values cannot be and which the source does not handle:
  - A null mapper, a null predicate given to `compose`, or a null `Iterable` makes the returned
    predicate throw `NullPointerException` when it is tested. With a null predicate given to
    `compose`, the mapper has already run (Predicates.java:45).
  - A null predicate inside the list throws only if the loop reaches it. A predicate that holds
    earlier in the list makes the loop return true first.
  - A null varargs array throws during construction, inside `Arrays.asList`
    (Predicates.java:75, :105), before any predicate is returned.
- Exceptions thrown by the caller's mappers or predicates, and how they propagate. These callables
  are modelled as total functions.
- Java generic variance (`? super T`, `? extends U`) and `@SafeVarargs`. They are type-system
  details with no behaviour.
- Laziness: building the combined predicate does not call its inputs. A pure model cannot
  observe this.
- `Iterable` inputs are modelled as finite sequences. An infinite or changing `Iterable` is not
  modelled: on an infinite one where no predicate holds, the source loops forever.
- The element type of every combinator is declared `T(!new)`, so types that contain heap
  references are not covered. The contracts quantify over every input, and Dafny allows that only
  for such types.
- The private constructor (Predicates.java:33-35) builds nothing.
