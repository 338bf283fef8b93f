/**
 Ranking candidate characters and answering queries through the caches
 (`_candidate_rank`, `_match_chars_by_tokens`, `_get_matched_pinyin_keys`,
 pkg/chars_matcher/pinyin_chars_matcher.py).
 */
module PinyinMatcher {
  import opened Prelude
  import opened StableSort
  import opened LruCache
  import opened PinyinTrie
  import opened PinyinVariants
  import opened PinyinKeys

  /** The fields of a rank, compared in this order. */
  datatype Rank = Rank(kind: int, edits: int, extra: int, queryPenalty: int, canonicalPenalty: int, place: int)

  predicate RankLt(a: Rank, b: Rank) {
    || a.kind < b.kind
    || (a.kind == b.kind && a.edits < b.edits)
    || (a.kind == b.kind && a.edits == b.edits && a.extra < b.extra)
    || (a.kind == b.kind && a.edits == b.edits && a.extra == b.extra && a.queryPenalty < b.queryPenalty)
    || (a.kind == b.kind && a.edits == b.edits && a.extra == b.extra && a.queryPenalty == b.queryPenalty
        && a.canonicalPenalty < b.canonicalPenalty)
    || (a.kind == b.kind && a.edits == b.edits && a.extra == b.extra && a.queryPenalty == b.queryPenalty
        && a.canonicalPenalty == b.canonicalPenalty && a.place < b.place)
  }

  datatype CharType = Char | Surname

  /** A mapping from pinyin keys to characters; `keys` is its order. */
  datatype Mapping = Mapping(keys: seq<string>, buckets: map<string, seq<string>>)

  /** `preferred` is the display key of a character, which the canonical pinyin tables decide. */
  datatype Lexicon = Lexicon(rules: Rules, chars: Mapping, surnames: Mapping, preferred: (string, CharType) -> string)

  function MappingOf(lexicon: Lexicon, charType: CharType): Mapping {
    match charType case Char => lexicon.chars case Surname => lexicon.surnames
  }

  function Bucket(mapping: Mapping, key: string): seq<string> {
    if key in mapping.buckets then mapping.buckets[key] else []
  }

  function KindPriority(kind: MatchType): int {
    match kind case Exact => 0 case FuzzyExact => 1 case Prefix => 2
  }

  /** `_candidate_rank`. */
  function CandidateRank(lexicon: Lexicon, charType: CharType, query: Option<string>, m: Matched, char_: string,
                         place: int): Rank {
    Rank(KindPriority(m.kind), m.edits, m.extra,
         if query == Some(char_) then 0 else 1,
         if lexicon.preferred(char_, charType) == m.key then 0 else 1,
         place)
  }

  /** Character `x` found at place `i` of the bucket of a match. */
  datatype Found = Found(m: Matched, x: string, i: int)

  /**
   Which of two finds comes first, by the first of these that tells them apart: an exact match
   before a fuzzy one before a prefix, fewer fuzzy rules, a shorter rest of the key, the queried
   character itself, a character whose preferred key was matched, and the place in the bucket.
   */
  predicate Precedes(lexicon: Lexicon, t: CharType, query: Option<string>, a: Found, b: Found) {
    if a.m.kind != b.m.kind then a.m.kind.Exact? || b.m.kind.Prefix?
    else if a.m.edits != b.m.edits then a.m.edits < b.m.edits
    else if a.m.extra != b.m.extra then a.m.extra < b.m.extra
    else if (query == Some(a.x)) != (query == Some(b.x)) then query == Some(a.x)
    else if (lexicon.preferred(a.x, t) == a.m.key) != (lexicon.preferred(b.x, t) == b.m.key) then lexicon.preferred(a.x, t) == a.m.key
    else a.i < b.i
  }

  /** Comparing the rank tuples decides by exactly these priorities. */
  lemma RankFollowsPriorities(lexicon: Lexicon, t: CharType, query: Option<string>, a: Found, b: Found)
    ensures RankLt(CandidateRank(lexicon, t, query, a.m, a.x, a.i), CandidateRank(lexicon, t, query, b.m, b.x, b.i))
      <==> Precedes(lexicon, t, query, a, b)
  {
  }

  // ---------- occurrences ----------

  /** A character met in a bucket, with the rank it has there. */
  datatype Occurrence = Occurrence(char_: string, rank: Rank)

  datatype Query = Query(charType: CharType, text: Option<string>)

  function InBucket(lexicon: Lexicon, q: Query, m: Matched): (r: seq<Occurrence>)
    ensures |r| == |Bucket(MappingOf(lexicon, q.charType), m.key)|
  {
    var bucket := Bucket(MappingOf(lexicon, q.charType), m.key);
    seq(|bucket|, i requires 0 <= i < |bucket| => Occurrence(bucket[i], CandidateRank(lexicon, q.charType, q.text, m, bucket[i], i)))
  }

  function InBuckets(lexicon: Lexicon, q: Query, matches: seq<Matched>): seq<Occurrence> {
    if matches == [] then []
    else InBuckets(lexicon, q, matches[..|matches| - 1]) + InBucket(lexicon, q, matches[|matches| - 1])
  }

  function MatchesOf(lexicon: Lexicon, charType: CharType, token: string): seq<Matched> {
    MatchKeys(lexicon.rules, token, MappingOf(lexicon, charType).keys, charType.Surname?)
  }

  /** Every character of every matched bucket, in the order the loops meet them. */
  function Occurrences(lexicon: Lexicon, q: Query, tokens: seq<string>): seq<Occurrence> {
    if tokens == [] then []
    else Occurrences(lexicon, q, tokens[..|tokens| - 1]) + InBuckets(lexicon, q, MatchesOf(lexicon, q.charType, tokens[|tokens| - 1]))
  }

  // ---------- candidates ----------

  datatype Candidate = Candidate(char_: string, rank: Rank, firstSeen: int)

  /** The place of a character in the insertion-ordered dictionary, or its size. */
  function Place(candidates: seq<Candidate>, char_: string): (n: nat)
    ensures n <= |candidates|
    ensures n < |candidates| ==> candidates[n].char_ == char_
    ensures forall k :: 0 <= k < n ==> candidates[k].char_ != char_
  {
    if candidates == [] then 0
    else if candidates[0].char_ == char_ then 0
    else 1 + Place(candidates[1..], char_)
  }

  function Consider(candidates: seq<Candidate>, o: Occurrence, position: int): seq<Candidate> {
    var n := Place(candidates, o.char_);
    if n == |candidates| then candidates + [Candidate(o.char_, o.rank, position)]
    else if RankLt(o.rank, candidates[n].rank) then candidates[n := Candidate(o.char_, o.rank, position)]
    else candidates
  }

  /** The candidates after the occurrences, which are numbered from one. */
  function Ranked(occurrences: seq<Occurrence>): seq<Candidate> {
    if occurrences == [] then []
    else Consider(Ranked(occurrences[..|occurrences| - 1]), occurrences[|occurrences| - 1], |occurrences|)
  }

  /** The sort key (rank, first seen). */
  predicate CandidateLe(a: Candidate, b: Candidate) {
    RankLt(a.rank, b.rank) || (a.rank == b.rank && a.firstSeen <= b.firstSeen)
  }

  function Chars(candidates: seq<Candidate>): (r: seq<string>)
    ensures |r| == |candidates|
  {
    seq(|candidates|, i requires 0 <= i < |candidates| => candidates[i].char_)
  }

  /** The answer to a query, by definition. */
  function Answer(lexicon: Lexicon, q: Query, tokens: seq<string>): seq<string> {
    Chars(Sort(Ranked(Occurrences(lexicon, q, tokens)), CandidateLe))
  }

  // ---------- what a candidate records ----------

  /** The smallest rank of the character over all occurrences, and where it was first seen. */
  predicate IsBest(occurrences: seq<Occurrence>, c: Candidate) {
    && 1 <= c.firstSeen <= |occurrences|
    && occurrences[c.firstSeen - 1] == Occurrence(c.char_, c.rank)
    && (forall k :: 0 <= k < |occurrences| && occurrences[k].char_ == c.char_ ==> !RankLt(occurrences[k].rank, c.rank))
    && (forall k :: 0 <= k < c.firstSeen - 1 && occurrences[k].char_ == c.char_ ==> RankLt(c.rank, occurrences[k].rank))
  }

  predicate DistinctChars(candidates: seq<Candidate>) {
    forall j, k :: 0 <= j < k < |candidates| ==> candidates[j].char_ != candidates[k].char_
  }

  predicate HasChar(candidates: seq<Candidate>, char_: string) {
    exists k :: 0 <= k < |candidates| && candidates[k].char_ == char_
  }

  predicate RankedWell(occurrences: seq<Occurrence>, candidates: seq<Candidate>) {
    && DistinctChars(candidates)
    && (forall k :: 0 <= k < |candidates| ==> IsBest(occurrences, candidates[k]))
    && (forall i :: 0 <= i < |occurrences| ==> HasChar(candidates, occurrences[i].char_))
  }

  /** Ranks are totally ordered. */
  lemma RankOrder(a: Rank, b: Rank, c: Rank)
    ensures RankLt(a, b) || RankLt(b, a) || a == b
    ensures !(RankLt(a, b) && RankLt(b, a)) && !RankLt(a, a)
    ensures RankLt(a, b) && RankLt(b, c) ==> RankLt(a, c)
  {
  }

  /** A further occurrence of another character changes nothing for this one. */
  lemma BestElsewhere(occurrences: seq<Occurrence>, o: Occurrence, c: Candidate)
    requires IsBest(occurrences, c) && (o.char_ == c.char_ ==> !RankLt(o.rank, c.rank))
    ensures IsBest(occurrences + [o], c)
  {
    var more := occurrences + [o];
    assert forall k :: 0 <= k < |occurrences| ==> more[k] == occurrences[k];
  }

  lemma BestNew(occurrences: seq<Occurrence>, o: Occurrence)
    requires forall k :: 0 <= k < |occurrences| && occurrences[k].char_ == o.char_ ==> RankLt(o.rank, occurrences[k].rank)
    ensures IsBest(occurrences + [o], Candidate(o.char_, o.rank, |occurrences| + 1))
  {
    RankOrder(o.rank, o.rank, o.rank);
    forall k | 0 <= k < |occurrences| && occurrences[k].char_ == o.char_ ensures !RankLt(occurrences[k].rank, o.rank) {
      RankOrder(o.rank, occurrences[k].rank, o.rank);
    }
    var more := occurrences + [o];
    assert forall k :: 0 <= k < |occurrences| ==> more[k] == occurrences[k];
  }

  /** A strictly smaller rank beats every earlier occurrence of the character. */
  lemma BetterThanAll(occurrences: seq<Occurrence>, o: Occurrence, c: Candidate)
    requires IsBest(occurrences, c) && c.char_ == o.char_ && RankLt(o.rank, c.rank)
    ensures forall k :: 0 <= k < |occurrences| && occurrences[k].char_ == o.char_ ==> RankLt(o.rank, occurrences[k].rank)
  {
    forall k | 0 <= k < |occurrences| && occurrences[k].char_ == o.char_ ensures RankLt(o.rank, occurrences[k].rank) {
      RankOrder(o.rank, c.rank, occurrences[k].rank);
      RankOrder(c.rank, occurrences[k].rank, o.rank);
    }
  }

  lemma ConsideredWell(occurrences: seq<Occurrence>, candidates: seq<Candidate>, o: Occurrence)
    requires RankedWell(occurrences, candidates)
    ensures RankedWell(occurrences + [o], Consider(candidates, o, |occurrences| + 1))
  {
    var n := Place(candidates, o.char_);
    var after := Consider(candidates, o, |occurrences| + 1);
    forall k | 0 <= k < |after| ensures IsBest(occurrences + [o], after[k]) {
      if k < |candidates| && after[k] == candidates[k] {
        assert k != n ==> candidates[k].char_ != o.char_ by {
          if n < |candidates| && k != n {
            assert candidates[n].char_ != candidates[k].char_;
          }
        }
        BestElsewhere(occurrences, o, candidates[k]);
      } else {
        if n < |candidates| {
          BetterThanAll(occurrences, o, candidates[n]);
        } else {
          Unseen(occurrences, candidates, o.char_);
        }
        BestNew(occurrences, o);
      }
    }
    forall i | 0 <= i < |occurrences + [o]| ensures HasChar(after, (occurrences + [o])[i].char_) {
      CharsKept(candidates, o, |occurrences| + 1, (occurrences + [o])[i].char_);
    }
  }

  lemma Unseen(occurrences: seq<Occurrence>, candidates: seq<Candidate>, char_: string)
    requires RankedWell(occurrences, candidates) && Place(candidates, char_) == |candidates|
    ensures forall k :: 0 <= k < |occurrences| ==> occurrences[k].char_ != char_
  {
  }

  lemma CharsKept(candidates: seq<Candidate>, o: Occurrence, position: int, char_: string)
    requires HasChar(candidates, char_) || char_ == o.char_
    ensures HasChar(Consider(candidates, o, position), char_)
  {
    var after, n := Consider(candidates, o, position), Place(candidates, o.char_);
    if HasChar(candidates, char_) {
      var k :| 0 <= k < |candidates| && candidates[k].char_ == char_;
      assert after[k].char_ == char_;
    } else {
      assert after[n].char_ == char_;
    }
  }

  lemma RankedNext(occurrences: seq<Occurrence>, o: Occurrence)
    ensures Ranked(occurrences + [o]) == Consider(Ranked(occurrences), o, |occurrences| + 1)
  {
    assert (occurrences + [o])[..|occurrences|] == occurrences;
  }

  lemma {:induction false} RankedIsWell(occurrences: seq<Occurrence>)
    ensures RankedWell(occurrences, Ranked(occurrences))
  {
    if occurrences != [] {
      var front, last := occurrences[..|occurrences| - 1], occurrences[|occurrences| - 1];
      RankedIsWell(front);
      ConsideredWell(front, Ranked(front), last);
      RankedNext(front, last);
      FrontAndLast(occurrences);
    }
  }

  lemma CandidateOrder()
    ensures IsOrder(CandidateLe)
  {
    forall a: Candidate, b: Candidate ensures CandidateLe(a, b) || CandidateLe(b, a) {
      RankOrder(a.rank, b.rank, a.rank);
    }
    forall a: Candidate, b: Candidate, c: Candidate | CandidateLe(a, b) && CandidateLe(b, c) ensures CandidateLe(a, c) {
      RankOrder(a.rank, b.rank, c.rank);
    }
  }

  /**
   The answer holds exactly the characters of the matched buckets, each once, ordered by the
   smallest rank of each character and, between equal ranks, by where it was first seen.
   */
  lemma AnswerIsRanked(lexicon: Lexicon, q: Query, tokens: seq<string>)
    ensures var answer, occurrences := Answer(lexicon, q, tokens), Occurrences(lexicon, q, tokens);
      exists candidates: seq<Candidate> ::
        && Chars(candidates) == answer
        && RankedWell(occurrences, candidates)
        && Sorted(candidates, CandidateLe)
  {
    var occurrences := Occurrences(lexicon, q, tokens);
    var ranked := Ranked(occurrences);
    var sorted := Sort(ranked, CandidateLe);
    RankedIsWell(occurrences);
    CandidateOrder();
    SortSorts(ranked, CandidateLe);
    SameRanked(occurrences, ranked, sorted);
    assert Chars(sorted) == Answer(lexicon, q, tokens);
  }

  lemma SameRanked(occurrences: seq<Occurrence>, a: seq<Candidate>, b: seq<Candidate>)
    requires RankedWell(occurrences, a) && multiset(a) == multiset(b)
    ensures RankedWell(occurrences, b)
  {
    SameElements(a, b);
    assert NoDuplicates(a);
    SameNoDuplicates(a, b);
    forall j, k | 0 <= j < k < |b| ensures b[j].char_ != b[k].char_ {
      assert b[j] in a && b[k] in a;
    }
    forall k | 0 <= k < |b| ensures IsBest(occurrences, b[k]) {
      assert b[k] in a;
    }
    forall i | 0 <= i < |occurrences| ensures HasChar(b, occurrences[i].char_) {
      assert HasChar(a, occurrences[i].char_);
      var k :| 0 <= k < |a| && a[k].char_ == occurrences[i].char_;
      assert a[k] in b;
      var m :| 0 <= m < |b| && b[m] == a[k];
    }
  }

  /** The character is in the bucket of a key that one of the tokens matches. */
  predicate InMatchedTokens(lexicon: Lexicon, q: Query, tokens: seq<string>, char_: string) {
    exists t :: 0 <= t < |tokens| && InMatchedBucket(lexicon, q, MatchesOf(lexicon, q.charType, tokens[t]), char_)
  }

  lemma TokensNext(lexicon: Lexicon, q: Query, tokens: seq<string>, token: string, char_: string)
    ensures InMatchedTokens(lexicon, q, tokens + [token], char_) <==>
      InMatchedTokens(lexicon, q, tokens, char_) || InMatchedBucket(lexicon, q, MatchesOf(lexicon, q.charType, token), char_)
  {
    assert (tokens + [token])[|tokens|] == token;
    if InMatchedTokens(lexicon, q, tokens, char_) {
      var t :| 0 <= t < |tokens| && InMatchedBucket(lexicon, q, MatchesOf(lexicon, q.charType, tokens[t]), char_);
      assert (tokens + [token])[t] == tokens[t];
    }
  }

  lemma OccurrencesNext(lexicon: Lexicon, q: Query, tokens: seq<string>, token: string, char_: string)
    ensures Meets(Occurrences(lexicon, q, tokens + [token]), char_) <==>
      Meets(Occurrences(lexicon, q, tokens), char_) || InMatchedBucket(lexicon, q, MatchesOf(lexicon, q.charType, token), char_)
  {
    var last := MatchesOf(lexicon, q.charType, token);
    assert (tokens + [token])[..|tokens|] == tokens;
    BucketsHold(lexicon, q, last, char_);
    Concatenated(Occurrences(lexicon, q, tokens), InBuckets(lexicon, q, last), char_);
  }

  /** The characters met are exactly those of the buckets of the matched keys of the tokens. */
  lemma {:induction false} OccurrencesAreBuckets(lexicon: Lexicon, q: Query, tokens: seq<string>, char_: string)
    ensures Meets(Occurrences(lexicon, q, tokens), char_) <==> InMatchedTokens(lexicon, q, tokens, char_)
  {
    if tokens != [] {
      var front, last := tokens[..|tokens| - 1], tokens[|tokens| - 1];
      OccurrencesAreBuckets(lexicon, q, front, char_);
      OccurrencesNext(lexicon, q, front, last, char_);
      TokensNext(lexicon, q, front, last, char_);
      FrontAndLast(tokens);
    }
  }

  predicate Meets(occurrences: seq<Occurrence>, char_: string) {
    exists i :: 0 <= i < |occurrences| && occurrences[i].char_ == char_
  }

  predicate InMatchedBucket(lexicon: Lexicon, q: Query, matches: seq<Matched>, char_: string) {
    exists k :: 0 <= k < |matches| && char_ in Bucket(MappingOf(lexicon, q.charType), matches[k].key)
  }

  lemma Concatenated(a: seq<Occurrence>, b: seq<Occurrence>, char_: string)
    ensures Meets(a + b, char_) <==> Meets(a, char_) || Meets(b, char_)
  {
    if Meets(a, char_) {
      var i :| 0 <= i < |a| && a[i].char_ == char_;
      assert (a + b)[i].char_ == char_;
    }
    if Meets(b, char_) {
      var i :| 0 <= i < |b| && b[i].char_ == char_;
      assert (a + b)[|a| + i].char_ == char_;
    }
  }

  lemma {:induction false} BucketsHold(lexicon: Lexicon, q: Query, matches: seq<Matched>, char_: string)
    ensures Meets(InBuckets(lexicon, q, matches), char_) <==> InMatchedBucket(lexicon, q, matches, char_)
  {
    if matches != [] {
      var n := |matches| - 1;
      BucketsHold(lexicon, q, matches[..n], char_);
      Concatenated(InBuckets(lexicon, q, matches[..n]), InBucket(lexicon, q, matches[n]), char_);
      var bucket := Bucket(MappingOf(lexicon, q.charType), matches[n].key);
      if char_ in bucket {
        var i :| 0 <= i < |bucket| && bucket[i] == char_;
        assert InBucket(lexicon, q, matches[n])[i].char_ == char_;
      }
      if k :| 0 <= k < n && char_ in Bucket(MappingOf(lexicon, q.charType), matches[..n][k].key) {
        assert matches[k] == matches[..n][k];
      }
      if k :| 0 <= k < |matches| && char_ in Bucket(MappingOf(lexicon, q.charType), matches[k].key) {
        assert k < n ==> matches[..n][k] == matches[k];
      }
    }
  }

  /** The answer: no character twice, and exactly the characters of the matched buckets. */
  lemma AnswerIsUnion(lexicon: Lexicon, q: Query, tokens: seq<string>)
    ensures NoDuplicates(Answer(lexicon, q, tokens))
    ensures forall char_ :: char_ in Answer(lexicon, q, tokens) <==> InMatchedTokens(lexicon, q, tokens, char_)
  {
    var answer, occurrences := Answer(lexicon, q, tokens), Occurrences(lexicon, q, tokens);
    AnswerIsRanked(lexicon, q, tokens);
    var candidates: seq<Candidate> :|
      Chars(candidates) == answer && RankedWell(occurrences, candidates) && Sorted(candidates, CandidateLe);
    forall char_ ensures char_ in answer <==> InMatchedTokens(lexicon, q, tokens, char_) {
      CandidatesMeet(occurrences, candidates, char_);
      OccurrencesAreBuckets(lexicon, q, tokens, char_);
    }
  }

  lemma CandidatesMeet(occurrences: seq<Occurrence>, candidates: seq<Candidate>, char_: string)
    requires RankedWell(occurrences, candidates)
    ensures char_ in Chars(candidates) <==> Meets(occurrences, char_)
  {
    if char_ in Chars(candidates) {
      var k :| 0 <= k < |candidates| && Chars(candidates)[k] == char_;
      assert IsBest(occurrences, candidates[k]);
      assert occurrences[candidates[k].firstSeen - 1].char_ == char_;
    }
    if Meets(occurrences, char_) {
      var i :| 0 <= i < |occurrences| && occurrences[i].char_ == char_;
      assert HasChar(candidates, char_);
      var k :| 0 <= k < |candidates| && candidates[k].char_ == char_;
      assert Chars(candidates)[k] == char_;
    }
  }

  // ---------- the matcher ----------

  /** The key of the cache of matched keys, and of the cache of answers. */
  datatype MatchCacheKey = MatchCacheKey(token: string, charType: CharType, allowPrefix: bool)
  datatype ResultCacheKey = ResultCacheKey(tokens: seq<string>, q: Query)

  const KEYS_CACHE_SIZE: nat := 2048
  const RESULT_CACHE_SIZE: nat := 256

  // Using a cache leaves the tries alone: their nodes are other objects.

  method GetBeside<K(==, !new), V>(cache: Cache<K, V>, key: K, a: PrefixTrie, b: PrefixTrie) returns (r: Option<V>)
    requires cache.Valid() && a.Valid() && b.Valid()
    modifies cache
    ensures cache.Valid() && a.Valid() && b.Valid()
    ensures cache.values == old(cache.values)
    ensures r == if key in cache.values then Some(cache.values[key]) else None
  {
    ghost var links, lists := (LinksOf(a.nodes), LinksOf(b.nodes)), (ListsOf(a.nodes), ListsOf(b.nodes));
    r := cache.Get(key);
    assert LinksOf(a.nodes) == links.0 && LinksOf(b.nodes) == links.1;
    assert ListsOf(a.nodes) == lists.0 && ListsOf(b.nodes) == lists.1;
  }

  method SetBeside<K(==, !new), V>(cache: Cache<K, V>, key: K, value: V, a: PrefixTrie, b: PrefixTrie)
    requires cache.Valid() && a.Valid() && b.Valid()
    modifies cache
    ensures cache.Valid() && a.Valid() && b.Valid()
    ensures forall k :: k in cache.values ==> if k == key then cache.values[k] == value
                                              else k in old(cache.values) && cache.values[k] == old(cache.values)[k]
  {
    ghost var links, lists := (LinksOf(a.nodes), LinksOf(b.nodes)), (ListsOf(a.nodes), ListsOf(b.nodes));
    cache.Set(key, value);
    assert LinksOf(a.nodes) == links.0 && LinksOf(b.nodes) == links.1;
    assert ListsOf(a.nodes) == lists.0 && ListsOf(b.nodes) == lists.1;
  }

  /** The matcher with its two tries, which never change, and the caches of matched keys and of answers. */
  class Matcher {
    const lexicon: Lexicon
    const charTrie: PrefixTrie
    const surnameTrie: PrefixTrie
    const matchedKeysCache: Cache<MatchCacheKey, seq<Matched>>
    const resultCache: Cache<ResultCacheKey, seq<string>>

    constructor (lexicon: Lexicon, charTrie: PrefixTrie, surnameTrie: PrefixTrie)
      ensures Valid() && this.lexicon == lexicon && this.charTrie == charTrie && this.surnameTrie == surnameTrie
      ensures fresh(matchedKeysCache) && fresh(resultCache)
    {
      this.lexicon, this.charTrie, this.surnameTrie := lexicon, charTrie, surnameTrie;
      matchedKeysCache := new Cache(KEYS_CACHE_SIZE);
      resultCache := new Cache(RESULT_CACHE_SIZE);
    }

    ghost predicate TriesValid()
      reads Objects(charTrie.nodes), Objects(surnameTrie.nodes)
    {
      && charTrie.Valid() && charTrie.keys == lexicon.chars.keys
      && surnameTrie.Valid() && surnameTrie.keys == lexicon.surnames.keys
    }

    function KeysFor(k: MatchCacheKey): seq<Matched> {
      MatchKeys(lexicon.rules, k.token, MappingOf(lexicon, k.charType).keys, k.allowPrefix)
    }

    function AnswerFor(k: ResultCacheKey): seq<string> {
      Answer(lexicon, k.q, k.tokens)
    }

    /** The caches keep within their bounds and hold nothing but what would be computed again. */
    ghost predicate Valid()
      reads matchedKeysCache, resultCache
    {
      && matchedKeysCache.Valid() && matchedKeysCache.maxSize == KEYS_CACHE_SIZE
      && resultCache.Valid() && resultCache.maxSize == RESULT_CACHE_SIZE
      && (forall k :: k in matchedKeysCache.values ==> matchedKeysCache.values[k] == KeysFor(k))
      && (forall k :: k in resultCache.values ==> resultCache.values[k] == AnswerFor(k))
    }

    method ComputeKeys(key: MatchCacheKey) returns (matches: seq<Matched>)
      requires TriesValid()
      ensures TriesValid()
      ensures matches == KeysFor(key)
    {
      assert forall o :: o in Objects(charTrie.nodes) + Objects(surnameTrie.nodes) ==> allocated(o);
      if key.charType == Char {
        matches := MatchPinyinKeys(lexicon.rules, key.token, charTrie, key.allowPrefix);
      } else {
        matches := MatchPinyinKeys(lexicon.rules, key.token, surnameTrie, key.allowPrefix);
      }
    }

    /** `_get_matched_pinyin_keys`: with or without a hit, the same keys. */
    method GetMatchedPinyinKeys(key: MatchCacheKey) returns (matches: seq<Matched>)
      requires Valid() && TriesValid()
      modifies matchedKeysCache
      ensures Valid() && TriesValid()
      ensures matches == KeysFor(key)
    {
      var cached := GetBeside(matchedKeysCache, key, charTrie, surnameTrie);
      if cached.Some? {
        return cached.value;
      }
      matches := ComputeKeys(key);
      SetBeside(matchedKeysCache, key, matches, charTrie, surnameTrie);
    }

    /** `_get_cached_match_result`. */
    method LookUpAnswer(key: ResultCacheKey) returns (cached: Option<seq<string>>)
      requires Valid() && TriesValid()
      modifies resultCache
      ensures Valid() && TriesValid()
      ensures cached.Some? ==> cached.value == AnswerFor(key)
    {
      cached := GetBeside(resultCache, key, charTrie, surnameTrie);
    }

    /** `_cache_match_result`. */
    method StoreAnswer(key: ResultCacheKey, answer: seq<string>)
      requires Valid() && TriesValid() && answer == AnswerFor(key)
      modifies resultCache
      ensures Valid() && TriesValid()
    {
      SetBeside(resultCache, key, answer, charTrie, surnameTrie);
    }

    /**
     `_match_chars_by_tokens`: whatever was asked before, the answer is the one the
     definition gives, and the caches stay within their bounds.
     */
    method MatchCharsByTokens(tokens: seq<string>, q: Query) returns (answer: seq<string>)
      requires Valid() && TriesValid()
      modifies matchedKeysCache, resultCache
      ensures Valid() && TriesValid()
      ensures answer == Answer(lexicon, q, tokens)
    {
      if tokens == [] {
        return [];
      }
      var key := ResultCacheKey(tokens, q);
      var cached := LookUpAnswer(key);
      if cached.Some? {
        return cached.value;
      }
      var candidates := RankCandidates(tokens, q);
      answer := Chars(Sort(candidates, CandidateLe));
      StoreAnswer(key, answer);
    }

    /** The loop over the tokens. */
    method RankCandidates(tokens: seq<string>, q: Query) returns (candidates: seq<Candidate>)
      requires Valid() && TriesValid()
      modifies matchedKeysCache
      ensures Valid() && TriesValid()
      ensures candidates == Ranked(Occurrences(lexicon, q, tokens))
    {
      candidates := [];
      var firstSeen := 0;
      ghost var all: seq<Occurrence> := [];
      var t := 0;
      while t < |tokens|
        invariant 0 <= t <= |tokens|
        invariant Valid() && TriesValid()
        invariant all == Occurrences(lexicon, q, tokens[..t])
        invariant candidates == Ranked(all) && firstSeen == |all|
      {
        OccurrencesStep(lexicon, q, tokens, t);
        candidates, firstSeen, all := RankToken(tokens[t], q, all, candidates, firstSeen);
        t := t + 1;
      }
      assert tokens[..t] == tokens;
    }

    method RankToken(token: string, q: Query, ghost before: seq<Occurrence>, known: seq<Candidate>, seen: int)
      returns (candidates: seq<Candidate>, firstSeen: int, ghost all: seq<Occurrence>)
      requires Valid() && TriesValid()
      requires known == Ranked(before) && seen == |before|
      modifies matchedKeysCache
      ensures Valid() && TriesValid()
      ensures all == before + InBuckets(lexicon, q, MatchesOf(lexicon, q.charType, token))
      ensures candidates == Ranked(all) && firstSeen == |all|
    {
      var matches := GetMatchedPinyinKeys(MatchCacheKey(token, q.charType, q.charType.Surname?));
      candidates, firstSeen, all := RankMatches(matches, q, before, known, seen);
    }

    method RankMatches(matches: seq<Matched>, q: Query, ghost before: seq<Occurrence>, known: seq<Candidate>, seen: int)
      returns (candidates: seq<Candidate>, firstSeen: int, ghost all: seq<Occurrence>)
      requires Valid() && TriesValid()
      requires known == Ranked(before) && seen == |before|
      ensures Valid() && TriesValid()
      ensures all == before + InBuckets(lexicon, q, matches)
      ensures candidates == Ranked(all) && firstSeen == |all|
    {
      ghost var a, b := charTrie.nodes, surnameTrie.nodes;
      ghost var links, lists := (LinksOf(a), LinksOf(b)), (ListsOf(a), ListsOf(b));
      all := before + InBuckets(lexicon, q, matches);
      candidates, firstSeen := ConsiderMatches(lexicon, q, matches, before, known, seen);
      assert LinksOf(a) == links.0 && LinksOf(b) == links.1 && ListsOf(a) == lists.0 && ListsOf(b) == lists.1;
    }
  }

  lemma OccurrencesStep(lexicon: Lexicon, q: Query, tokens: seq<string>, t: nat)
    requires t < |tokens|
    ensures Occurrences(lexicon, q, tokens[..t + 1]) ==
      Occurrences(lexicon, q, tokens[..t]) + InBuckets(lexicon, q, MatchesOf(lexicon, q.charType, tokens[t]))
  {
    assert tokens[..t + 1][..t] == tokens[..t];
  }

  lemma BucketsStep(lexicon: Lexicon, q: Query, matches: seq<Matched>, m: nat, before: seq<Occurrence>)
    requires m < |matches|
    ensures before + InBuckets(lexicon, q, matches[..m + 1]) ==
      before + InBuckets(lexicon, q, matches[..m]) + InBucket(lexicon, q, matches[m])
  {
    assert matches[..m + 1][..m] == matches[..m];
  }

  method ConsiderMatches(lexicon: Lexicon, q: Query, matches: seq<Matched>, ghost before: seq<Occurrence>,
                         known: seq<Candidate>, seen: int)
    returns (candidates: seq<Candidate>, firstSeen: int)
    requires known == Ranked(before) && seen == |before|
    ensures candidates == Ranked(before + InBuckets(lexicon, q, matches))
    ensures firstSeen == |before + InBuckets(lexicon, q, matches)|
  {
    candidates, firstSeen := known, seen;
    ghost var all := before;
    var m := 0;
    assert before + InBuckets(lexicon, q, matches[..0]) == before;
    while m < |matches|
      invariant 0 <= m <= |matches|
      invariant all == before + InBuckets(lexicon, q, matches[..m])
      invariant candidates == Ranked(all) && firstSeen == |all|
    {
      BucketsStep(lexicon, q, matches, m, before);
      candidates, firstSeen := ConsiderBucket(lexicon, q, matches[m], all, candidates, firstSeen);
      all := all + InBucket(lexicon, q, matches[m]);
      m := m + 1;
    }
    assert matches[..m] == matches;
  }

  /** The innermost loop: one bucket. */
  method ConsiderBucket(lexicon: Lexicon, q: Query, m: Matched, ghost before: seq<Occurrence>, known: seq<Candidate>,
                        seen: int)
    returns (candidates: seq<Candidate>, firstSeen: int)
    requires known == Ranked(before) && seen == |before|
    ensures candidates == Ranked(before + InBucket(lexicon, q, m))
    ensures firstSeen == |before + InBucket(lexicon, q, m)|
  {
    candidates, firstSeen := known, seen;
    var bucket := Bucket(MappingOf(lexicon, q.charType), m.key);
    ghost var all := before;
    var place := 0;
    while place < |bucket|
      invariant 0 <= place <= |bucket|
      invariant all == before + InBucket(lexicon, q, m)[..place]
      invariant candidates == Ranked(all) && firstSeen == |all|
    {
      firstSeen := firstSeen + 1;
      var o := Occurrence(bucket[place], CandidateRank(lexicon, q.charType, q.text, m, bucket[place], place));
      RankedNext(all, o);
      candidates := Consider(candidates, o, firstSeen);
      all := all + [o];
      place := place + 1;
    }
    assert InBucket(lexicon, q, m)[..place] == InBucket(lexicon, q, m);
  }
}
