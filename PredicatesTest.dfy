/** The scenarios of data4j's `PredicatesTest`, stated as lemmas about the
    model. A method reference `"bob"::equals` is the predicate
    `s => "bob" == s`, and `"boby"::endsWith` is `s => EndsWith("boby", s)`. */
module PredicatesTest {
  import opened Predicates

  /** `String.endsWith`: `suffix` is a suffix of `s`. */
  predicate EndsWith(s: string, suffix: string) {
    |suffix| <= |s| && s[|s| - |suffix|..] == suffix
  }

  /** `"word"::equals`. */
  function Equals(word: string): (r: string -> bool) {
    s => word == s
  }

  /** `"word"::endsWith`. */
  function IsSuffixOf(word: string): (r: string -> bool) {
    s => EndsWith(word, s)
  }

  /** `testCompose`: mapping "bob" to its length and testing it against 3. */
  lemma ComposeLengthIsThree()
    ensures Compose((s: string) => |s|, (n: int) => n == 3)("bob")
    ensures !Compose((s: string) => |s|, (n: int) => n == 3)("boby")
  {
  }

  /** `testAndArray`: one true and one false predicate make `and` true, in
      either order; two false ones make it false. */
  lemma AndArrayScenarios()
    ensures AndVarargs([Equals("bob"), IsSuffixOf("boby")])("bob")
    ensures AndVarargs([IsSuffixOf("boby"), Equals("bob")])("bob")
    ensures !AndVarargs([Equals("bob"), Equals("jack")])("pete")
    ensures !AndVarargs([Equals("jack"), Equals("bob")])("pete")
  {
  }

  /** `testOrArray`: the same pairs under `or`. */
  lemma OrArrayScenarios()
    ensures OrVarargs([Equals("bob"), Equals("jack")])("bob")
    ensures OrVarargs([Equals("jack"), Equals("bob")])("bob")
    ensures !OrVarargs([Equals("bob"), Equals("jack")])("pete")
    ensures !OrVarargs([Equals("jack"), Equals("bob")])("pete")
  {
  }

  /** The first `testAndArray` assertion holds only because `and` tests for
      SOME predicate: "boby" does not end with "bob", so the documented
      "all predicates" combinator is false on the same input. */
  lemma AndArrayContradictsDocumentation()
    ensures AndVarargs([Equals("bob"), IsSuffixOf("boby")])("bob")
    ensures !AllOf([Equals("bob"), IsSuffixOf("boby")])("bob")
  {
  }
}
