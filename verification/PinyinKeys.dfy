/** The pinyin keys a token matches (`_match_pinyin_keys`, pkg/chars_matcher/pinyin_chars_matcher.py). */
module PinyinKeys {
  import opened Prelude
  import opened StableSort
  import opened PinyinTrie
  import opened PinyinVariants

  datatype MatchType = Exact | FuzzyExact | Prefix

  datatype Matched = Matched(key: string, kind: MatchType, edits: nat, extra: int)

  predicate Seen(matches: seq<Matched>, key: string) {
    exists k :: 0 <= k < |matches| && matches[k].key == key
  }

  /** A key is matched once, by the first way that finds it. */
  function Add(matches: seq<Matched>, m: Matched): seq<Matched> {
    if Seen(matches, m.key) then matches else matches + [m]
  }

  /** The fuzzy spellings that are keys. */
  function AddFuzzy(matches: seq<Matched>, variants: seq<Variant>, keys: seq<string>): seq<Matched> {
    if variants == [] then matches else
    var v := variants[|variants| - 1];
    var before := AddFuzzy(matches, variants[..|variants| - 1], keys);
    if v.token in keys then Add(before, Matched(v.token, FuzzyExact, v.edits, 0)) else before
  }

  function PrefixMatch(v: Variant, key: string): Matched {
    Matched(key, Prefix, v.edits, |key| - |v.token|)
  }

  function AddLonger(matches: seq<Matched>, v: Variant, longer: seq<string>): seq<Matched> {
    if longer == [] then matches
    else Add(AddLonger(matches, v, longer[..|longer| - 1]), PrefixMatch(v, longer[|longer| - 1]))
  }

  /** For each spelling in turn, the keys that continue it. */
  function AddPrefixes(matches: seq<Matched>, variants: seq<Variant>, keys: seq<string>): seq<Matched> {
    if variants == [] then matches else
    var v := variants[|variants| - 1];
    AddLonger(AddPrefixes(matches, variants[..|variants| - 1], keys), v, WithPrefix(keys, v.token))
  }

  function ExactMatches(token: string, keys: seq<string>): seq<Matched> {
    if token in keys then [Matched(token, Exact, 0, 0)] else []
  }

  function WholeMatches(token: string, variants: seq<Variant>, keys: seq<string>): seq<Matched>
    requires variants != []
  {
    AddFuzzy(ExactMatches(token, keys), variants[1..], keys)
  }

  function MatchVariants(token: string, variants: seq<Variant>, keys: seq<string>, allowPrefix: bool): seq<Matched>
    requires variants != []
  {
    var whole := WholeMatches(token, variants, keys);
    if allowPrefix || whole == [] then AddPrefixes(whole, variants, keys) else whole
  }

  function MatchKeys(rules: Rules, token: string, keys: seq<string>, allowPrefix: bool): seq<Matched> {
    MatchVariants(token, FuzzyVariants(rules, token), keys, allowPrefix)
  }

  // ---------- the loops ----------

  /** `_match_pinyin_keys`, with the trie lookups. */
  method MatchPinyinKeys(rules: Rules, token: string, trie: PrefixTrie, allowPrefix: bool)
    returns (matches: seq<Matched>)
    requires trie.Valid()
    ensures matches == MatchKeys(rules, token, trie.keys, allowPrefix)
    ensures trie.Valid()
  {
    assert forall o :: o in Objects(trie.nodes) ==> allocated(o);
    var variants := GenerateFuzzyVariants(rules, token);
    matches := MatchSpellings(token, variants, trie, allowPrefix);
  }

  method MatchSpellings(token: string, variants: seq<Variant>, trie: PrefixTrie, allowPrefix: bool)
    returns (matches: seq<Matched>)
    requires variants != [] && trie.Valid()
    ensures matches == MatchVariants(token, variants, trie.keys, allowPrefix)
    ensures trie.Valid()
  {
    matches := ExactMatches(token, trie.keys);
    var k := 0;
    while k < |variants[1..]|
      invariant 0 <= k <= |variants[1..]|
      invariant matches == AddFuzzy(ExactMatches(token, trie.keys), variants[1..][..k], trie.keys)
    {
      var v := variants[1..][k];
      assert variants[1..][..k + 1][..k] == variants[1..][..k];
      if v.token in trie.keys {
        matches := Add(matches, Matched(v.token, FuzzyExact, v.edits, 0));
      }
      k := k + 1;
    }
    assert variants[1..][..k] == variants[1..];
    if allowPrefix || matches == [] {
      matches := MatchPrefixes(matches, variants, trie);
    }
  }

  method MatchPrefixes(whole: seq<Matched>, variants: seq<Variant>, trie: PrefixTrie)
    returns (matches: seq<Matched>)
    requires trie.Valid()
    ensures matches == AddPrefixes(whole, variants, trie.keys)
    ensures trie.Valid()
  {
    matches := whole;
    var k := 0;
    while k < |variants|
      invariant 0 <= k <= |variants|
      invariant trie.Valid()
      invariant matches == AddPrefixes(whole, variants[..k], trie.keys)
    {
      assert variants[..k + 1][..k] == variants[..k];
      matches := MatchPrefixesOf(matches, variants[k], trie);
      k := k + 1;
    }
    assert variants[..k] == variants;
  }

  method MatchPrefixesOf(before: seq<Matched>, v: Variant, trie: PrefixTrie)
    returns (matches: seq<Matched>)
    requires trie.Valid()
    ensures matches == AddLonger(before, v, WithPrefix(trie.keys, v.token))
    ensures trie.Valid()
  {
    var longer := trie.Matches(v.token);
    matches := before;
    var k := 0;
    while k < |longer|
      invariant 0 <= k <= |longer|
      invariant matches == AddLonger(before, v, longer[..k])
      invariant trie.Valid()
    {
      assert longer[..k + 1][..k] == longer[..k];
      matches := Add(matches, PrefixMatch(v, longer[k]));
      k := k + 1;
    }
    assert longer[..k] == longer;
  }

  // ---------- what is matched ----------

  predicate DistinctKeys(matches: seq<Matched>) {
    forall j, k :: 0 <= j < k < |matches| ==> matches[j].key != matches[k].key
  }

  /** The first spelling that `key` continues. */
  predicate FirstPrefix(variants: seq<Variant>, key: string, n: nat) {
    n < |variants| && variants[n].token <= key && forall j :: 0 <= j < n ==> !(variants[j].token <= key)
  }

  predicate ContinuesAny(variants: seq<Variant>, key: string) {
    exists n :: 0 <= n < |variants| && variants[n].token <= key
  }

  predicate IsSpelling(variants: seq<Variant>, key: string) {
    exists n :: 0 <= n < |variants| && variants[n].token == key
  }

  /** The plain definition of how a key is matched, given the spellings of the token. */
  ghost predicate Describes(variants: seq<Variant>, m: Matched)
    requires variants != []
  {
    match m.kind
    case Exact => m == Matched(variants[0].token, Exact, 0, 0)
    case FuzzyExact => exists n :: 0 < n < |variants| && m == Matched(variants[n].token, FuzzyExact, variants[n].edits, 0)
    case Prefix => exists n: nat :: FirstPrefix(variants, m.key, n) && m == PrefixMatch(variants[n], m.key)
  }

  lemma {:induction false} FuzzyMatches(matches: seq<Matched>, variants: seq<Variant>, keys: seq<string>)
    requires DistinctKeys(matches)
    ensures var r := AddFuzzy(matches, variants, keys);
      && DistinctKeys(r) && matches <= r
      && (forall key :: Seen(r, key) <==> Seen(matches, key) || (key in keys && IsSpelling(variants, key)))
      && (forall k :: |matches| <= k < |r| ==>
            exists n :: 0 <= n < |variants| && r[k] == Matched(variants[n].token, FuzzyExact, variants[n].edits, 0))
  {
    if variants != [] {
      var front, v := variants[..|variants| - 1], variants[|variants| - 1];
      FuzzyMatches(matches, front, keys);
      var before, r := AddFuzzy(matches, front, keys), AddFuzzy(matches, variants, keys);
      forall key ensures Seen(r, key) <==> Seen(matches, key) || (key in keys && IsSpelling(variants, key)) {
        AddedSeen(before, Matched(v.token, FuzzyExact, v.edits, 0), key);
        SpellingNext(front, v, key);
        assert variants == front + [v];
      }
      forall k | |matches| <= k < |r|
        ensures exists n :: 0 <= n < |variants| && r[k] == Matched(variants[n].token, FuzzyExact, variants[n].edits, 0)
      {
        if k < |before| {
          var n :| 0 <= n < |front| && before[k] == Matched(front[n].token, FuzzyExact, front[n].edits, 0);
          assert variants[n] == front[n];
        } else {
          assert variants[|front|] == v;
        }
      }
    }
  }

  lemma AddedSeen(matches: seq<Matched>, m: Matched, key: string)
    ensures Seen(Add(matches, m), key) <==> Seen(matches, key) || key == m.key
  {
    if !Seen(matches, m.key) {
      assert (matches + [m])[|matches|] == m;
      if Seen(matches, key) {
        var k :| 0 <= k < |matches| && matches[k].key == key;
        assert (matches + [m])[k].key == key;
      }
    }
  }

  lemma SpellingNext(variants: seq<Variant>, v: Variant, key: string)
    ensures IsSpelling(variants + [v], key) <==> IsSpelling(variants, key) || v.token == key
  {
    assert (variants + [v])[|variants|] == v;
    if IsSpelling(variants, key) {
      var n :| 0 <= n < |variants| && variants[n].token == key;
      assert (variants + [v])[n].token == key;
    }
  }

  lemma {:induction false} LongerMatches(matches: seq<Matched>, v: Variant, longer: seq<string>)
    requires DistinctKeys(matches)
    ensures var r := AddLonger(matches, v, longer);
      && DistinctKeys(r) && matches <= r
      && (forall key :: Seen(r, key) <==> Seen(matches, key) || key in longer)
      && (forall k :: |matches| <= k < |r| ==> r[k] == PrefixMatch(v, r[k].key) && r[k].key in longer && !Seen(matches, r[k].key))
  {
    if longer != [] {
      var front, last := longer[..|longer| - 1], longer[|longer| - 1];
      LongerMatches(matches, v, front);
      var before := AddLonger(matches, v, front);
      forall key ensures Seen(AddLonger(matches, v, longer), key) <==> Seen(matches, key) || key in longer {
        AddedSeen(before, PrefixMatch(v, last), key);
        assert key in longer <==> key in front || key == last;
      }
      assert last in longer && forall key :: key in front ==> key in longer;
    }
  }

  lemma ContinuesNext(variants: seq<Variant>, v: Variant, key: string)
    ensures ContinuesAny(variants + [v], key) <==> ContinuesAny(variants, key) || v.token <= key
  {
    assert (variants + [v])[|variants|] == v;
    if ContinuesAny(variants, key) {
      var n :| 0 <= n < |variants| && variants[n].token <= key;
      assert (variants + [v])[n].token <= key;
    }
  }

  lemma {:induction false} PrefixesMatched(matches: seq<Matched>, variants: seq<Variant>, keys: seq<string>)
    requires DistinctKeys(matches)
    ensures var r := AddPrefixes(matches, variants, keys);
      && DistinctKeys(r) && matches <= r
      && (forall key :: Seen(r, key) <==> Seen(matches, key) || (key in keys && ContinuesAny(variants, key)))
      && (forall k :: |matches| <= k < |r| ==>
            exists n: nat :: FirstPrefix(variants, r[k].key, n) && r[k] == PrefixMatch(variants[n], r[k].key))
  {
    if variants != [] {
      var front, v := variants[..|variants| - 1], variants[|variants| - 1];
      assert variants == front + [v];
      var before, r := AddPrefixes(matches, front, keys), AddPrefixes(matches, variants, keys);
      PrefixesMatched(matches, front, keys);
      LongerMatches(before, v, WithPrefix(keys, v.token));
      WithPrefixElements(keys, v.token);
      forall key ensures Seen(r, key) <==> Seen(matches, key) || (key in keys && ContinuesAny(variants, key)) {
        ContinuesNext(front, v, key);
      }
      forall k | |matches| <= k < |r|
        ensures exists n: nat :: FirstPrefix(variants, r[k].key, n) && r[k] == PrefixMatch(variants[n], r[k].key)
      {
        if k < |before| {
          var n: nat :| FirstPrefix(front, before[k].key, n) && before[k] == PrefixMatch(front[n], before[k].key);
          assert FirstPrefix(variants, r[k].key, n);
        } else {
          NewIsFirst(matches, front, v, keys, r[k].key);
          assert FirstPrefix(variants, r[k].key, |front|);
        }
      }
    }
  }

  lemma NewIsFirst(matches: seq<Matched>, front: seq<Variant>, v: Variant, keys: seq<string>, key: string)
    requires !Seen(AddPrefixes(matches, front, keys), key) && key in keys && v.token <= key
    requires Seen(AddPrefixes(matches, front, keys), key) <==> Seen(matches, key) || (key in keys && ContinuesAny(front, key))
    ensures FirstPrefix(front + [v], key, |front|)
  {
  }

  /** The spellings of a token, as `FuzzyVariants` gives them. */
  predicate SpellingsOf(token: string, variants: seq<Variant>) {
    variants != [] && variants[0] == Variant(token, 0) && DistinctTokens(variants)
  }

  lemma SpellingSplit(variants: seq<Variant>, key: string)
    requires variants != []
    ensures IsSpelling(variants, key) <==> key == variants[0].token || IsSpelling(variants[1..], key)
  {
    if IsSpelling(variants, key) && key != variants[0].token {
      var n :| 0 <= n < |variants| && variants[n].token == key;
      assert variants[1..][n - 1].token == key;
    }
    if IsSpelling(variants[1..], key) {
      var n :| 0 <= n < |variants[1..]| && variants[1..][n].token == key;
      assert variants[n + 1].token == key;
    }
  }

  lemma WholeMatched(token: string, variants: seq<Variant>, keys: seq<string>)
    requires SpellingsOf(token, variants)
    ensures var whole := WholeMatches(token, variants, keys);
      && DistinctKeys(whole)
      && (forall key :: Seen(whole, key) <==> key in keys && IsSpelling(variants, key))
      && (forall k :: 0 <= k < |whole| ==> !whole[k].kind.Prefix? && Describes(variants, whole[k]))
  {
    var exact, whole := ExactMatches(token, keys), WholeMatches(token, variants, keys);
    FuzzyMatches(exact, variants[1..], keys);
    forall key ensures Seen(whole, key) <==> key in keys && IsSpelling(variants, key) {
      SpellingSplit(variants, key);
      assert Seen(exact, key) <==> key == token && token in keys by {
        if token in keys {
          assert exact[0].key == token;
        }
      }
    }
    forall k | 0 <= k < |whole| ensures !whole[k].kind.Prefix? && Describes(variants, whole[k]) {
      if k >= |exact| {
        var n :| 0 <= n < |variants[1..]| && whole[k] == Matched(variants[1..][n].token, FuzzyExact, variants[1..][n].edits, 0);
        assert variants[1..][n] == variants[n + 1];
      }
    }
  }

  lemma SpellingContinues(variants: seq<Variant>, key: string)
    requires IsSpelling(variants, key)
    ensures ContinuesAny(variants, key)
  {
    var n :| 0 <= n < |variants| && variants[n].token == key;
    assert variants[n].token <= key;
  }

  /** Some key is a spelling of the token. */
  predicate NamesKey(variants: seq<Variant>, keys: seq<string>) {
    exists k :: 0 <= k < |keys| && IsSpelling(variants, keys[k])
  }

  lemma SomeWhole(token: string, variants: seq<Variant>, keys: seq<string>)
    requires SpellingsOf(token, variants)
    ensures WholeMatches(token, variants, keys) != [] <==> NamesKey(variants, keys)
  {
    WholeMatched(token, variants, keys);
    var whole := WholeMatches(token, variants, keys);
    if whole != [] {
      assert Seen(whole, whole[0].key);
    }
    if NamesKey(variants, keys) {
      var k :| 0 <= k < |keys| && IsSpelling(variants, keys[k]);
      assert Seen(whole, keys[k]);
    }
  }

  /** When a key is matched: it is a spelling of the token, or it continues one and prefixes count. */
  predicate IsMatch(variants: seq<Variant>, keys: seq<string>, allowPrefix: bool, key: string) {
    key in keys && (IsSpelling(variants, key) || ((allowPrefix || !NamesKey(variants, keys)) && ContinuesAny(variants, key)))
  }

  lemma VariantsMatched(token: string, variants: seq<Variant>, keys: seq<string>, allowPrefix: bool)
    requires SpellingsOf(token, variants)
    ensures var r := MatchVariants(token, variants, keys, allowPrefix);
      && DistinctKeys(r)
      && (forall key :: Seen(r, key) <==> IsMatch(variants, keys, allowPrefix, key))
      && (forall k :: 0 <= k < |r| ==> Describes(variants, r[k]))
  {
    var whole, r := WholeMatches(token, variants, keys), MatchVariants(token, variants, keys, allowPrefix);
    WholeMatched(token, variants, keys);
    SomeWhole(token, variants, keys);
    PrefixesMatched(whole, variants, keys);
    forall key ensures Seen(r, key) <==> IsMatch(variants, keys, allowPrefix, key) {
      if IsSpelling(variants, key) {
        SpellingContinues(variants, key);
      }
    }
    forall k | 0 <= k < |r| ensures Describes(variants, r[k]) {
      if k < |whole| {
        assert r[k] == whole[k];
      }
    }
  }

  /**
   The keys a token matches, each once: those it or a fuzzy spelling of it names, and, when
   none does or prefixes are always allowed, those that continue one of the spellings.  Each
   carries the edits of the spelling that found it first.
   */
  lemma MatchedKeys(rules: Rules, token: string, keys: seq<string>, allowPrefix: bool)
    ensures var r, variants := MatchKeys(rules, token, keys, allowPrefix), FuzzyVariants(rules, token);
      && DistinctKeys(r)
      && (forall key :: Seen(r, key) <==> IsMatch(variants, keys, allowPrefix, key))
      && (forall k :: 0 <= k < |r| ==> Describes(variants, r[k]))
  {
    VariantsAreMinimal(rules, token);
    VariantsMatched(token, FuzzyVariants(rules, token), keys, allowPrefix);
  }
}
