/** The keyword classifiers of the voice and receipt services: a chain of
    tests `text.contains(w1) || text.contains(w2) || ...`, the first test
    that holds deciding the outcome. A chain is written as a table of rules
    read first match first, and each service states its chain as such a
    table. */
module Keywords {
  import opened Common

  /** `text.contains(w)` for some word `w` of `words`, tried left to right. */
  function ContainsAny(text: string, words: seq<string>): (b: bool)
    ensures b <==> exists k :: 0 <= k < |words| && Contains(text, words[k])
  {
    if words == [] then false
    else
      var rest := ContainsAny(text, words[1..]);
      assert forall k :: 1 <= k < |words| ==> words[k] == words[1..][k - 1];
      ContainsFrom(text, words[0], 0) || rest
  }

  /** One link of the chain: its words and the outcome it gives. */
  datatype Rule = Rule(words: seq<string>, outcome: string)

  predicate Fires(rule: Rule, text: string) {
    ContainsAny(text, rule.words)
  }

  /** Rule `k` fires and no earlier one does. */
  predicate FirstFiring(rules: seq<Rule>, text: string, k: int) {
    0 <= k < |rules| && Fires(rules[k], text) && forall j :: 0 <= j < k ==> !Fires(rules[j], text)
  }

  predicate NoneFires(rules: seq<Rule>, text: string) {
    forall k :: 0 <= k < |rules| ==> !Fires(rules[k], text)
  }

  /** The outcome of the first rule one of whose words occurs in `text`, and
      `fallback` when none does. */
  function Classify(rules: seq<Rule>, text: string, fallback: string): (r: string)
    ensures NoneFires(rules, text) ==> r == fallback
    ensures forall k :: FirstFiring(rules, text, k) ==> r == rules[k].outcome
  {
    if rules == [] then fallback
    else if Fires(rules[0], text) then
      assert FirstFiring(rules, text, 0);
      rules[0].outcome
    else
      var r := Classify(rules[1..], text, fallback);
      assert forall k :: 1 <= k < |rules| ==> rules[k] == rules[1..][k - 1];
      assert forall k :: FirstFiring(rules, text, k) ==> k >= 1 && FirstFiring(rules[1..], text, k - 1);
      r
  }

  /** Some rule fires first whenever any rule fires. */
  lemma {:induction false} SomeRuleFiresFirst(rules: seq<Rule>, text: string) returns (k: nat)
    requires !NoneFires(rules, text)
    ensures FirstFiring(rules, text, k)
  {
    if Fires(rules[0], text) {
      k := 0;
    } else {
      assert forall j :: 1 <= j < |rules| ==> rules[j] == rules[1..][j - 1];
      k := SomeRuleFiresFirst(rules[1..], text);
      k := k + 1;
    }
  }

  /** The outcomes a table can give. */
  function Outcomes(rules: seq<Rule>): (ls: set<string>)
    ensures forall k :: 0 <= k < |rules| ==> rules[k].outcome in ls
    ensures forall l :: l in ls ==> exists k :: 0 <= k < |rules| && rules[k].outcome == l
  {
    set k | 0 <= k < |rules| :: rules[k].outcome
  }

  /** A classification is one of the table's outcomes or the fallback, and it
      is the fallback exactly when no rule fires, provided no rule carries
      the fallback as its outcome. */
  lemma ClassifyRange(rules: seq<Rule>, text: string, fallback: string)
    ensures Classify(rules, text, fallback) in Outcomes(rules) + {fallback}
    ensures fallback !in Outcomes(rules) ==> (Classify(rules, text, fallback) == fallback <==> NoneFires(rules, text))
  {
    if !NoneFires(rules, text) {
      var k := SomeRuleFiresFirst(rules, text);
    }
  }
}
