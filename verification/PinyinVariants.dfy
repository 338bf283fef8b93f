/**
 Fuzzy variants of a pinyin token and the keys a token matches (`_generate_fuzzy_variants`,
 `_match_pinyin_keys`, pkg/chars_matcher/pinyin_chars_matcher.py).
 */
module PinyinVariants {
  import opened StableSort
  import opened PinyinTrie

  /** A spelling and the number of fuzzy rules that produce it. */
  datatype Variant = Variant(token: string, edits: nat)

  // ---------- rules ----------

  const INITIALS: string := "bpmfdtnlgkhjqxrzcsyw"

  function SplitInitial(token: string): (r: (string, string))
    ensures r.0 + r.1 == token
  {
    if "zh" <= token || "ch" <= token || "sh" <= token then (token[..2], token[2..])
    else if token != "" && token[0] in INITIALS then (token[..1], token[1..])
    else ("", token)
  }

  /** `_FUZZY_INITIALS`. */
  function InitialSwaps(initial: string): seq<string> {
    match initial
    case "z" => ["zh"]
    case "zh" => ["z"]
    case "c" => ["ch"]
    case "ch" => ["c"]
    case "s" => ["sh"]
    case "sh" => ["s"]
    case "l" => ["n", "r"]
    case "n" => ["l"]
    case "r" => ["l"]
    case "f" => ["h"]
    case "h" => ["f"]
    case _ => []
  }

  /** `_FUZZY_FINALS`, in dictionary order. */
  const FINAL_RULES: seq<(string, string)> := [
    ("an", "ang"), ("ang", "an"), ("en", "eng"), ("eng", "en"), ("in", "ing"), ("ing", "in"),
    ("ian", "iang"), ("iang", "ian"), ("uan", "uang"), ("uang", "uan")]

  /** What the rules say of a token: its initial and final, the initials to swap in, and the final rules in order. */
  datatype Rules = Rules(
    split: string -> (string, string),
    swaps: string -> seq<string>,
    finals: seq<(string, string)>)

  const PINYIN_RULES: Rules := Rules(SplitInitial, InitialSwaps, FINAL_RULES)

  /** Fuzzy sounds go both ways: z and zh, l and n, an and ang, and so on. */
  lemma RulesAreSymmetric(a: string, b: string)
    ensures b in InitialSwaps(a) <==> a in InitialSwaps(b)
    ensures (a, b) in FINAL_RULES <==> (b, a) in FINAL_RULES
  {
  }

  predicate EndsWith(text: string, suffix: string) {
    |suffix| <= |text| && text[|text| - |suffix|..] == suffix
  }

  function InitialVariants(initial: string, swaps: seq<string>): seq<Variant> {
    [Variant(initial, 0)] + seq(|swaps|, i requires 0 <= i < |swaps| => Variant(swaps[i], 1))
  }

  /** The final itself, then what each rule that applies makes of it. */
  function FinalVariants(final: string, rules: seq<(string, string)>): seq<Variant> {
    if rules == [] then [Variant(final, 0)] else
    var rule := rules[|rules| - 1];
    FinalVariants(final, rules[..|rules| - 1])
      + (if EndsWith(final, rule.0) then [Variant(final[..|final| - |rule.0|] + rule.1, 1)] else [])
  }

  function Joined(initial: Variant, final: Variant): Variant {
    Variant(initial.token + final.token, initial.edits + final.edits)
  }

  function Row(initial: Variant, finals: seq<Variant>): (r: seq<Variant>)
    ensures |r| == |finals|
  {
    seq(|finals|, k requires 0 <= k < |finals| => Joined(initial, finals[k]))
  }

  /** Every initial with every final, in the order of the two loops. */
  function Combinations(initials: seq<Variant>, finals: seq<Variant>): seq<Variant> {
    if initials == [] then []
    else Combinations(initials[..|initials| - 1], finals) + Row(initials[|initials| - 1], finals)
  }

  function InitialsOf(rules: Rules, token: string): seq<Variant> {
    var initial := rules.split(token).0;
    InitialVariants(initial, rules.swaps(initial))
  }

  function FinalsOf(rules: Rules, token: string): seq<Variant> {
    FinalVariants(rules.split(token).1, rules.finals)
  }

  /** The ways the rules rewrite a token. */
  function Rewrites(rules: Rules, token: string): seq<Variant> {
    Combinations(InitialsOf(rules, token), FinalsOf(rules, token))
  }

  lemma {:induction false} CombinationsAll(initials: seq<Variant>, finals: seq<Variant>)
    ensures forall i, f :: i in initials && f in finals ==> Joined(i, f) in Combinations(initials, finals)
    ensures forall v :: v in Combinations(initials, finals) ==> exists i, f :: i in initials && f in finals && v == Joined(i, f)
  {
    if initials != [] {
      var front, last := initials[..|initials| - 1], initials[|initials| - 1];
      CombinationsAll(front, finals);
      forall i, f | i in initials && f in finals ensures Joined(i, f) in Combinations(initials, finals) {
        if i == last {
          var k :| 0 <= k < |finals| && finals[k] == f;
          assert Row(last, finals)[k] == Joined(i, f);
        }
      }
      forall v | v in Combinations(initials, finals) ensures exists i, f :: i in initials && f in finals && v == Joined(i, f) {
        if v in Row(last, finals) {
          var k :| 0 <= k < |finals| && Row(last, finals)[k] == v;
          assert last in initials && finals[k] in finals && v == Joined(last, finals[k]);
        }
      }
    }
  }

  // ---------- collecting variants ----------

  /** The place of a token in the insertion-ordered dictionary, or its size. */
  function Position(variants: seq<Variant>, token: string): (n: nat)
    ensures n <= |variants|
    ensures n < |variants| ==> variants[n].token == token
    ensures forall k :: 0 <= k < n ==> variants[k].token != token
  {
    if variants == [] then 0
    else if variants[0].token == token then 0
    else 1 + Position(variants[1..], token)
  }

  /** A new spelling is added at the end; a known one keeps its place and takes fewer edits. */
  function Collect(variants: seq<Variant>, v: Variant): (r: seq<Variant>)
    ensures |r| >= |variants|
  {
    var n := Position(variants, v.token);
    if v.token == "" then variants
    else if n == |variants| then variants + [v]
    else if v.edits < variants[n].edits then variants[n := v]
    else variants
  }

  function CollectAll(variants: seq<Variant>, more: seq<Variant>): (r: seq<Variant>)
    ensures |r| >= |variants|
  {
    if more == [] then variants
    else Collect(CollectAll(variants, more[..|more| - 1]), more[|more| - 1])
  }

  function FuzzyVariants(rules: Rules, token: string): (r: seq<Variant>)
    ensures r != []
  {
    CollectAll([Variant(token, 0)], Rewrites(rules, token))
  }

  lemma CollectAllAppend(variants: seq<Variant>, more: seq<Variant>, v: Variant)
    ensures CollectAll(variants, more + [v]) == Collect(CollectAll(variants, more), v)
  {
    assert (more + [v])[..|more|] == more;
  }

  lemma {:induction false} CollectAllSplit(variants: seq<Variant>, a: seq<Variant>, b: seq<Variant>)
    ensures CollectAll(variants, a + b) == CollectAll(CollectAll(variants, a), b)
  {
    if b == [] {
      assert a + b == a;
    } else {
      CollectAllSplit(variants, a, b[..|b| - 1]);
      assert (a + b)[..|a + b| - 1] == a + b[..|b| - 1];
    }
  }

  /** `_generate_fuzzy_variants`. */
  method GenerateFuzzyVariants(rules: Rules, token: string) returns (variants: seq<Variant>)
    ensures variants == FuzzyVariants(rules, token)
  {
    var split := rules.split(token);
    var initials := InitialVariants(split.0, rules.swaps(split.0));
    var finals := FinalVariantsOf(split.1, rules.finals);
    variants := [Variant(token, 0)];
    var i := 0;
    while i < |initials|
      invariant 0 <= i <= |initials|
      invariant variants == CollectAll([Variant(token, 0)], Combinations(initials[..i], finals))
    {
      CollectAllSplit([Variant(token, 0)], Combinations(initials[..i], finals), Row(initials[i], finals));
      CombinationsNext(initials, finals, i);
      variants := CollectRow(variants, initials[i], finals);
      i := i + 1;
    }
    assert initials[..i] == initials;
  }

  lemma CombinationsNext(initials: seq<Variant>, finals: seq<Variant>, i: nat)
    requires i < |initials|
    ensures Combinations(initials[..i + 1], finals) == Combinations(initials[..i], finals) + Row(initials[i], finals)
  {
    assert initials[..i + 1][..i] == initials[..i];
  }

  /** The inner loop: one initial with every final. */
  method CollectRow(before: seq<Variant>, initial: Variant, finals: seq<Variant>) returns (variants: seq<Variant>)
    ensures variants == CollectAll(before, Row(initial, finals))
  {
    variants := before;
    ghost var row := Row(initial, finals);
    var f := 0;
    while f < |finals|
      invariant 0 <= f <= |finals|
      invariant variants == CollectAll(before, row[..f])
    {
      CollectAllAppend(before, row[..f], row[f]);
      assert row[..f + 1] == row[..f] + [row[f]];
      variants := Collect(variants, Joined(initial, finals[f]));
      f := f + 1;
    }
    assert row[..f] == row;
  }

  /** The loop over the rules for finals. */
  method FinalVariantsOf(final: string, rules: seq<(string, string)>) returns (finals: seq<Variant>)
    ensures finals == FinalVariants(final, rules)
  {
    finals := [Variant(final, 0)];
    var k := 0;
    while k < |rules|
      invariant 0 <= k <= |rules|
      invariant finals == FinalVariants(final, rules[..k])
    {
      var rule := rules[k];
      assert rules[..k + 1][..k] == rules[..k];
      if EndsWith(final, rule.0) {
        finals := finals + [Variant(final[..|final| - |rule.0|] + rule.1, 1)];
      }
      k := k + 1;
    }
    assert rules[..k] == rules;
  }

  /** The spelling is there, with no more edits. */
  predicate Covered(variants: seq<Variant>, w: Variant) {
    exists k :: 0 <= k < |variants| && variants[k].token == w.token && variants[k].edits <= w.edits
  }

  predicate DistinctTokens(variants: seq<Variant>) {
    forall j, k :: 0 <= j < k < |variants| ==> variants[j].token != variants[k].token
  }

  /** The spellings are distinct, and each carries the fewest edits that lead to it. */
  predicate Minimal(token: string, variants: seq<Variant>, rewrites: seq<Variant>) {
    && variants != [] && variants[0] == Variant(token, 0)
    && DistinctTokens(variants)
    && (forall k :: 0 < k < |variants| ==> variants[k].token != "" && variants[k] in rewrites)
    && (forall r :: 0 <= r < |rewrites| && rewrites[r].token != "" ==> Covered(variants, rewrites[r]))
  }

  lemma CollectCovers(variants: seq<Variant>, v: Variant, w: Variant)
    requires Covered(variants, w) || (w == v && v.token != "")
    ensures Covered(Collect(variants, v), w)
  {
    var after := Collect(variants, v);
    var n := Position(variants, v.token);
    if Covered(variants, w) {
      var k :| 0 <= k < |variants| && variants[k].token == w.token && variants[k].edits <= w.edits;
      assert after[k].token == w.token && after[k].edits <= w.edits;
    } else {
      assert after[n].token == w.token && after[n].edits <= w.edits;
    }
  }

  lemma CollectDistinct(variants: seq<Variant>, v: Variant)
    requires DistinctTokens(variants)
    ensures DistinctTokens(Collect(variants, v))
  {
  }

  lemma CollectOrigin(variants: seq<Variant>, v: Variant, rewrites: seq<Variant>, k: nat)
    requires k < |Collect(variants, v)|
    requires k < |variants| ==> variants[k] in rewrites
    ensures Collect(variants, v)[k] in rewrites + [v]
    ensures Collect(variants, v)[k].token == if k < |variants| then variants[k].token else v.token
  {
    assert Collect(variants, v)[k] == v || (k < |variants| && Collect(variants, v)[k] == variants[k]);
  }

  lemma CollectMinimal(token: string, variants: seq<Variant>, rewrites: seq<Variant>, v: Variant)
    requires Minimal(token, variants, rewrites)
    ensures Minimal(token, Collect(variants, v), rewrites + [v])
  {
    var after, more := Collect(variants, v), rewrites + [v];
    CollectDistinct(variants, v);
    forall r | 0 <= r < |more| && more[r].token != "" ensures Covered(after, more[r]) {
      CollectCovers(variants, v, more[r]);
    }
    forall k | 0 < k < |after| ensures after[k].token != "" && after[k] in more {
      CollectOrigin(variants, v, rewrites, k);
    }
  }

  lemma {:induction false} CollectAllMinimal(token: string, rewrites: seq<Variant>)
    ensures Minimal(token, CollectAll([Variant(token, 0)], rewrites), rewrites)
  {
    if rewrites != [] {
      var front, last := rewrites[..|rewrites| - 1], rewrites[|rewrites| - 1];
      CollectAllMinimal(token, front);
      CollectMinimal(token, CollectAll([Variant(token, 0)], front), front, last);
      CollectAllAppend([Variant(token, 0)], front, last);
      FrontAndLast(rewrites);
    }
  }

  /**
   The variants of a token are the token itself and every spelling that swapping its initial,
   its final or both can give, each once and with the fewest swaps.
   */
  lemma VariantsAreMinimal(rules: Rules, token: string)
    ensures Minimal(token, FuzzyVariants(rules, token), Rewrites(rules, token))
    ensures forall i, f :: i in InitialsOf(rules, token) && f in FinalsOf(rules, token) ==> Joined(i, f) in Rewrites(rules, token)
    ensures forall v :: v in Rewrites(rules, token) ==>
      exists i, f :: i in InitialsOf(rules, token) && f in FinalsOf(rules, token) && v == Joined(i, f)
  {
    CollectAllMinimal(token, Rewrites(rules, token));
    CombinationsAll(InitialsOf(rules, token), FinalsOf(rules, token));
  }
}
