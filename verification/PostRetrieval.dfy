/**
 Deduplicating and grouping search hits, and choosing evidence from the groups
 (pkg/vectors/post_retrieval.py, `_select_evidence_hits` in internal/services/rag.py).
 Scores are reals; a missing score ranks below every score.
 */
module PostRetrieval {
  import opened Prelude
  import opened StableSort

  datatype Hit = Hit(id: nat, relevance: Option<real>, raw: Option<real>)

  datatype KeepStrategy = First | BestScore

  /** The key functions resolve the configured fields; a hit without a document key is an error. */
  datatype PipelineConfig = PipelineConfig(
    dedup: bool,
    keep: KeepStrategy,
    dedupKey: Hit -> string,
    documentKey: Hit -> Option<string>,
    maxChunks: nat,
    maxDocuments: Option<nat>,
    aggregate: seq<Option<real>> -> Option<real>)

  predicate ValidConfig(cfg: PipelineConfig) {
    cfg.maxChunks > 0 && cfg.maxDocuments != Some(0)
  }

  // ---------- order ----------

  predicate ScoreLt(a: Option<real>, b: Option<real>) {
    b.Some? && (a.None? || a.value < b.value)
  }

  /** The sort key of `a` is at least that of `b`: relevance, raw score, smaller identifier. */
  predicate KeyGe(aRelevance: Option<real>, aRaw: Option<real>, aId: nat, bRelevance: Option<real>, bRaw: Option<real>,
                  bId: nat) {
    || ScoreLt(bRelevance, aRelevance)
    || (bRelevance == aRelevance && ScoreLt(bRaw, aRaw))
    || (bRelevance == aRelevance && bRaw == aRaw && aId <= bId)
  }

  predicate HitGe(a: Hit, b: Hit) {
    KeyGe(a.relevance, a.raw, a.id, b.relevance, b.raw, b.id)
  }

  /** `_is_better_hit`. */
  predicate Better(candidate: Hit, current: Hit) {
    !HitGe(current, candidate)
  }

  lemma HitOrder()
    ensures IsOrder(HitGe)
  {
  }

  function SortHits(hits: seq<Hit>): (r: seq<Hit>)
    ensures |r| == |hits|
  {
    Sort(hits, HitGe)
  }

  // ---------- deduplication ----------

  /** The place of the hit with this key in the insertion-ordered dictionary, or its size. */
  function KeyPlace(cfg: PipelineConfig, unique: seq<Hit>, key: string): (n: nat)
    ensures n <= |unique|
    ensures n < |unique| ==> cfg.dedupKey(unique[n]) == key
    ensures forall k :: 0 <= k < n ==> cfg.dedupKey(unique[k]) != key
  {
    if unique == [] then 0
    else if cfg.dedupKey(unique[0]) == key then 0
    else 1 + KeyPlace(cfg, unique[1..], key)
  }

  function Keep(cfg: PipelineConfig, unique: seq<Hit>, hit: Hit): seq<Hit> {
    var n := KeyPlace(cfg, unique, cfg.dedupKey(hit));
    if n == |unique| then unique + [hit]
    else if cfg.keep.BestScore? && Better(hit, unique[n]) then unique[n := hit]
    else unique
  }

  function Unique(cfg: PipelineConfig, hits: seq<Hit>): seq<Hit> {
    if hits == [] then [] else Keep(cfg, Unique(cfg, hits[..|hits| - 1]), hits[|hits| - 1])
  }

  function Deduplicated(cfg: PipelineConfig, hits: seq<Hit>): seq<Hit> {
    if !cfg.dedup then hits else SortHits(Unique(cfg, hits))
  }

  /** `_deduplicate_hits`. */
  method Deduplicate(cfg: PipelineConfig, hits: seq<Hit>) returns (r: seq<Hit>)
    ensures r == Deduplicated(cfg, hits)
  {
    if !cfg.dedup {
      return hits;
    }
    var unique: seq<Hit> := [];
    var k := 0;
    while k < |hits|
      invariant 0 <= k <= |hits|
      invariant unique == Unique(cfg, hits[..k])
    {
      assert hits[..k + 1][..k] == hits[..k];
      unique := Keep(cfg, unique, hits[k]);
      k := k + 1;
    }
    assert hits[..k] == hits;
    return SortHits(unique);
  }

  predicate DistinctKeys(cfg: PipelineConfig, hits: seq<Hit>) {
    forall j, k :: 0 <= j < k < |hits| ==> cfg.dedupKey(hits[j]) != cfg.dedupKey(hits[k])
  }

  /** The kept hit of each key is one of its hits and, under BEST_SCORE, none of them is better. */
  predicate Represents(cfg: PipelineConfig, hits: seq<Hit>, unique: seq<Hit>) {
    && DistinctKeys(cfg, unique)
    && (forall k :: 0 <= k < |unique| ==> unique[k] in hits)
    && (forall i :: 0 <= i < |hits| ==> Represented(cfg, unique, hits[i]))
  }

  predicate Represented(cfg: PipelineConfig, unique: seq<Hit>, hit: Hit) {
    exists k :: 0 <= k < |unique| && cfg.dedupKey(unique[k]) == cfg.dedupKey(hit) && (cfg.keep.BestScore? ==> HitGe(unique[k], hit))
  }

  lemma HitsOrdered(a: Hit, b: Hit, c: Hit)
    ensures HitGe(a, a) && (HitGe(a, b) || HitGe(b, a))
    ensures HitGe(a, b) && HitGe(b, c) ==> HitGe(a, c)
  {
  }

  lemma KeepRepresented(cfg: PipelineConfig, unique: seq<Hit>, hit: Hit, h: Hit)
    requires Represented(cfg, unique, h) || h == hit
    ensures Represented(cfg, Keep(cfg, unique, hit), h)
  {
    var after, n := Keep(cfg, unique, hit), KeyPlace(cfg, unique, cfg.dedupKey(hit));
    HitsOrdered(hit, hit, hit);
    if Represented(cfg, unique, h) {
      var k :| 0 <= k < |unique| && cfg.dedupKey(unique[k]) == cfg.dedupKey(h) && (cfg.keep.BestScore? ==> HitGe(unique[k], h));
      HitsOrdered(hit, unique[k], h);
      assert cfg.dedupKey(after[k]) == cfg.dedupKey(h) && (cfg.keep.BestScore? ==> HitGe(after[k], h));
    } else {
      if n < |unique| {
        HitsOrdered(unique[n], hit, hit);
      }
      assert cfg.dedupKey(after[n]) == cfg.dedupKey(h) && (cfg.keep.BestScore? ==> HitGe(after[n], h));
    }
  }

  lemma KeepDistinct(cfg: PipelineConfig, unique: seq<Hit>, hit: Hit)
    requires DistinctKeys(cfg, unique)
    ensures DistinctKeys(cfg, Keep(cfg, unique, hit))
  {
  }

  lemma KeepOrigin(cfg: PipelineConfig, unique: seq<Hit>, hit: Hit, hits: seq<Hit>, k: nat)
    requires k < |Keep(cfg, unique, hit)|
    requires k < |unique| ==> unique[k] in hits
    ensures Keep(cfg, unique, hit)[k] in hits + [hit]
  {
    assert Keep(cfg, unique, hit)[k] == hit || (k < |unique| && Keep(cfg, unique, hit)[k] == unique[k]);
  }

  lemma KeepRepresents(cfg: PipelineConfig, hits: seq<Hit>, unique: seq<Hit>, hit: Hit)
    requires Represents(cfg, hits, unique)
    ensures Represents(cfg, hits + [hit], Keep(cfg, unique, hit))
  {
    var more, after := hits + [hit], Keep(cfg, unique, hit);
    KeepDistinct(cfg, unique, hit);
    forall i | 0 <= i < |more| ensures Represented(cfg, after, more[i]) {
      KeepRepresented(cfg, unique, hit, more[i]);
    }
    forall k | 0 <= k < |after| ensures after[k] in more {
      KeepOrigin(cfg, unique, hit, hits, k);
    }
  }

  /** Deduplication keeps one hit for each key, and under BEST_SCORE the best one. */
  lemma {:induction false} UniqueRepresents(cfg: PipelineConfig, hits: seq<Hit>)
    ensures Represents(cfg, hits, Unique(cfg, hits))
  {
    if hits != [] {
      var front, last := hits[..|hits| - 1], hits[|hits| - 1];
      UniqueRepresents(cfg, front);
      KeepRepresents(cfg, front, Unique(cfg, front), last);
      assert hits == front + [last];
    }
  }

  lemma LaterNotBetter(hits: seq<Hit>, earlier: Hit)
    requires hits != [] && Sorted(hits, HitGe) && earlier in hits[..|hits| - 1]
    ensures !Better(hits[|hits| - 1], earlier)
  {
    var k :| 0 <= k < |hits| - 1 && hits[k] == earlier;
    assert HitGe(hits[k], hits[|hits| - 1]);
  }

  lemma SameKeep(cfg: PipelineConfig, unique: seq<Hit>, hit: Hit)
    requires forall k :: 0 <= k < |unique| ==> !Better(hit, unique[k])
    ensures Keep(cfg.(keep := First), unique, hit) == Keep(cfg.(keep := BestScore), unique, hit)
  {
    SameKeyPlace(cfg, unique, cfg.dedupKey(hit));
  }

  /** On hits in rank order the two strategies keep the same hits: a later hit is never better. */
  lemma {:induction false} StrategiesAgreeOnSorted(cfg: PipelineConfig, hits: seq<Hit>)
    requires Sorted(hits, HitGe)
    ensures Unique(cfg.(keep := First), hits) == Unique(cfg.(keep := BestScore), hits)
  {
    if hits != [] {
      var front, last := hits[..|hits| - 1], hits[|hits| - 1];
      StrategiesAgreeOnSorted(cfg, front);
      var unique := Unique(cfg.(keep := First), front);
      UniqueRepresents(cfg.(keep := First), front);
      forall k | 0 <= k < |unique| ensures !Better(last, unique[k]) {
        LaterNotBetter(hits, unique[k]);
      }
      SameKeep(cfg, unique, last);
    }
  }

  lemma {:induction false} SameKeyPlace(cfg: PipelineConfig, unique: seq<Hit>, key: string)
    ensures KeyPlace(cfg.(keep := First), unique, key) == KeyPlace(cfg.(keep := BestScore), unique, key)
  {
    if unique != [] {
      SameKeyPlace(cfg, unique[1..], key);
    }
  }

  /** The pipeline sorts before it deduplicates, so the keep strategy never matters to it. */
  lemma StrategyIsIrrelevant(cfg: PipelineConfig, hits: seq<Hit>)
    ensures Deduplicated(cfg.(keep := First), SortHits(hits)) == Deduplicated(cfg.(keep := BestScore), SortHits(hits))
  {
    HitOrder();
    SortSorts(hits, HitGe);
    StrategiesAgreeOnSorted(cfg, SortHits(hits));
  }

  // ---------- grouping ----------

  datatype Group = Group(key: string, members: seq<Hit>)

  function GroupPlace(groups: seq<Group>, key: string): (n: nat)
    ensures n <= |groups|
    ensures n < |groups| ==> groups[n].key == key
    ensures forall k :: 0 <= k < n ==> groups[k].key != key
  {
    if groups == [] then 0
    else if groups[0].key == key then 0
    else 1 + GroupPlace(groups[1..], key)
  }

  function AddToGroup(groups: seq<Group>, key: string, hit: Hit): seq<Group> {
    var n := GroupPlace(groups, key);
    if n == |groups| then groups + [Group(key, [hit])]
    else groups[n := groups[n].(members := groups[n].members + [hit])]
  }

  predicate AllKeyed(cfg: PipelineConfig, hits: seq<Hit>) {
    forall k :: 0 <= k < |hits| ==> cfg.documentKey(hits[k]).Some?
  }

  function Groups(cfg: PipelineConfig, hits: seq<Hit>): seq<Group>
    requires AllKeyed(cfg, hits)
  {
    if hits == [] then [] else
    var last := hits[|hits| - 1];
    AddToGroup(Groups(cfg, hits[..|hits| - 1]), cfg.documentKey(last).value, last)
  }

  /** The hits of a document, in order. */
  function Members(cfg: PipelineConfig, hits: seq<Hit>, key: string): (r: seq<Hit>)
    ensures |r| <= |hits|
  {
    if hits == [] then [] else
    var n := |hits| - 1;
    Members(cfg, hits[..n], key) + (if cfg.documentKey(hits[n]) == Some(key) then [hits[n]] else [])
  }

  function TotalMembers(groups: seq<Group>): nat {
    if groups == [] then 0 else TotalMembers(groups[..|groups| - 1]) + |groups[|groups| - 1].members|
  }

  predicate DistinctGroups(groups: seq<Group>) {
    forall j, k :: 0 <= j < k < |groups| ==> groups[j].key != groups[k].key
  }

  lemma {:induction false} TotalAfterUpdate(groups: seq<Group>, n: nat, g: Group)
    requires n < |groups| && |g.members| == |groups[n].members| + 1
    ensures TotalMembers(groups[n := g]) == TotalMembers(groups) + 1
  {
    var front := groups[..|groups| - 1];
    if n < |groups| - 1 {
      TotalAfterUpdate(front, n, g);
      assert groups[n := g][..|groups| - 1] == front[n := g];
    } else {
      assert groups[n := g][..|groups| - 1] == front;
    }
  }

  /** The groups are exactly the documents of the hits with all their hits, so the group sizes add up. */
  ghost predicate GroupedWell(cfg: PipelineConfig, hits: seq<Hit>, groups: seq<Group>) {
    && DistinctGroups(groups)
    && (forall k :: 0 <= k < |groups| ==> groups[k].members == Members(cfg, hits, groups[k].key) && groups[k].members != [])
    && (forall key :: GroupPlace(groups, key) == |groups| ==> Members(cfg, hits, key) == [])
    && TotalMembers(groups) == |hits|
  }

  lemma {:induction false} MembersAppend(cfg: PipelineConfig, hits: seq<Hit>, hit: Hit, key: string)
    ensures Members(cfg, hits + [hit], key) == Members(cfg, hits, key) + (if cfg.documentKey(hit) == Some(key) then [hit] else [])
  {
    assert (hits + [hit])[..|hits|] == hits;
  }

  lemma GroupAppend(groups: seq<Group>, g: Group)
    ensures TotalMembers(groups + [g]) == TotalMembers(groups) + |g.members|
  {
    assert (groups + [g])[..|groups|] == groups;
  }

  lemma AddedMembers(cfg: PipelineConfig, hits: seq<Hit>, groups: seq<Group>, hit: Hit, k: nat)
    requires cfg.documentKey(hit).Some? && GroupedWell(cfg, hits, groups)
    ensures var after := AddToGroup(groups, cfg.documentKey(hit).value, hit);
      k < |after| ==> after[k].members == Members(cfg, hits + [hit], after[k].key) && after[k].members != []
  {
    var after := AddToGroup(groups, cfg.documentKey(hit).value, hit);
    if k < |after| {
      MembersAppend(cfg, hits, hit, after[k].key);
    }
  }

  lemma AddedTotal(groups: seq<Group>, key: string, hit: Hit)
    ensures TotalMembers(AddToGroup(groups, key, hit)) == TotalMembers(groups) + 1
  {
    var n, after := GroupPlace(groups, key), AddToGroup(groups, key, hit);
    if n < |groups| {
      TotalAfterUpdate(groups, n, after[n]);
    } else {
      GroupAppend(groups, after[n]);
    }
  }

  lemma AddedAbsent(groups: seq<Group>, key: string, hit: Hit, other: string)
    requires GroupPlace(AddToGroup(groups, key, hit), other) == |AddToGroup(groups, key, hit)|
    ensures GroupPlace(groups, other) == |groups| && key != other
  {
    var n, after := GroupPlace(groups, key), AddToGroup(groups, key, hit);
    assert after[n].key == key;
    assert forall k :: 0 <= k < |groups| ==> after[k].key == groups[k].key;
  }

  lemma AddedWell(cfg: PipelineConfig, hits: seq<Hit>, groups: seq<Group>, hit: Hit)
    requires cfg.documentKey(hit).Some? && GroupedWell(cfg, hits, groups)
    ensures GroupedWell(cfg, hits + [hit], AddToGroup(groups, cfg.documentKey(hit).value, hit))
  {
    var key := cfg.documentKey(hit).value;
    var after := AddToGroup(groups, key, hit);
    assert DistinctGroups(after);
    forall k | 0 <= k < |after| ensures after[k].members == Members(cfg, hits + [hit], after[k].key) && after[k].members != [] {
      AddedMembers(cfg, hits, groups, hit, k);
    }
    forall other | GroupPlace(after, other) == |after| ensures Members(cfg, hits + [hit], other) == [] {
      MembersAppend(cfg, hits, hit, other);
      AddedAbsent(groups, key, hit, other);
    }
    AddedTotal(groups, key, hit);
  }

  lemma {:induction false} GroupsWell(cfg: PipelineConfig, hits: seq<Hit>)
    requires AllKeyed(cfg, hits)
    ensures GroupedWell(cfg, hits, Groups(cfg, hits))
  {
    if hits != [] {
      var front, last := hits[..|hits| - 1], hits[|hits| - 1];
      GroupsWell(cfg, front);
      AddedWell(cfg, front, Groups(cfg, front), last);
      assert front + [last] == hits;
    }
  }

  // ---------- documents ----------

  datatype Doc = Doc(key: string, primary: Hit, hitCount: nat, chunks: seq<Hit>, relevance: Option<real>, raw: Option<real>)

  function Take<T>(s: seq<T>, n: nat): seq<T> {
    if n < |s| then s[..n] else s
  }

  function Relevances(hits: seq<Hit>): seq<Option<real>> {
    seq(|hits|, i requires 0 <= i < |hits| => hits[i].relevance)
  }

  function Raws(hits: seq<Hit>): seq<Option<real>> {
    seq(|hits|, i requires 0 <= i < |hits| => hits[i].raw)
  }

  function MakeDoc(cfg: PipelineConfig, g: Group): Doc
    requires g.members != []
  {
    var ranked := SortHits(g.members);
    Doc(g.key, ranked[0], |ranked|, Take(ranked, cfg.maxChunks), cfg.aggregate(Relevances(ranked)), cfg.aggregate(Raws(ranked)))
  }

  predicate DocGe(a: Doc, b: Doc) {
    KeyGe(a.relevance, a.raw, a.primary.id, b.relevance, b.raw, b.primary.id)
  }

  lemma DocOrder()
    ensures IsOrder(DocGe)
  {
  }

  predicate Inhabited(groups: seq<Group>) {
    forall k :: 0 <= k < |groups| ==> groups[k].members != []
  }

  function Docs(cfg: PipelineConfig, groups: seq<Group>): (r: seq<Doc>)
    requires Inhabited(groups)
    ensures |r| == |groups|
  {
    seq(|groups|, k requires 0 <= k < |groups| => MakeDoc(cfg, groups[k]))
  }

  datatype RetrievalError = NoDocumentKey(id: nat)

  /** The hit at `k` has no document key, and every hit before it has one. */
  predicate FirstUnkeyed(cfg: PipelineConfig, hits: seq<Hit>, k: nat) {
    k < |hits| && cfg.documentKey(hits[k]).None? && AllKeyed(cfg, hits[..k])
  }

  /** The loop that fills the groups; the first hit without a document key stops it. */
  method GroupHits(cfg: PipelineConfig, hits: seq<Hit>) returns (r: Result<seq<Group>, RetrievalError>)
    ensures r.Ok? <==> AllKeyed(cfg, hits)
    ensures r.Ok? ==> r.value == Groups(cfg, hits) && GroupedWell(cfg, hits, r.value)
    ensures r.Err? ==> exists k :: 0 <= k < |hits| && FirstUnkeyed(cfg, hits, k) && r.error == NoDocumentKey(hits[k].id)
  {
    var groups: seq<Group> := [];
    var k := 0;
    while k < |hits|
      invariant 0 <= k <= |hits|
      invariant AllKeyed(cfg, hits[..k]) && groups == Groups(cfg, hits[..k])
    {
      var key := cfg.documentKey(hits[k]);
      if key.None? {
        assert FirstUnkeyed(cfg, hits, k);
        return Err(NoDocumentKey(hits[k].id));
      }
      assert hits[..k + 1][..k] == hits[..k];
      groups := AddToGroup(groups, key.value, hits[k]);
      k := k + 1;
    }
    assert hits[..k] == hits;
    GroupsWell(cfg, hits);
    return Ok(groups);
  }

  method RenderDocs(cfg: PipelineConfig, groups: seq<Group>) returns (docs: seq<Doc>)
    requires Inhabited(groups)
    ensures docs == Docs(cfg, groups)
  {
    docs := [];
    while |docs| < |groups|
      invariant |docs| <= |groups|
      invariant forall k :: 0 <= k < |docs| ==> docs[k] == MakeDoc(cfg, groups[k])
    {
      docs := docs + [MakeDoc(cfg, groups[|docs|])];
    }
  }

  /** A document stands for all hits with its key, best first, and shows the first `maxChunks` of them. */
  predicate DocOf(cfg: PipelineConfig, hits: seq<Hit>, d: Doc) {
    var members := Members(cfg, hits, d.key);
    && members != []
    && d == MakeDoc(cfg, Group(d.key, members))
  }

  predicate DistinctDocs(docs: seq<Doc>) {
    forall j, k :: 0 <= j < k < |docs| ==> docs[j].key != docs[k].key
  }

  function TotalHits(docs: seq<Doc>): nat {
    if docs == [] then 0 else TotalHits(docs[..|docs| - 1]) + docs[|docs| - 1].hitCount
  }

  /** The documents of the hits: one for each key, together counting every hit once. */
  predicate DocsWell(cfg: PipelineConfig, hits: seq<Hit>, docs: seq<Doc>) {
    && DistinctDocs(docs)
    && (forall k :: 0 <= k < |docs| ==> DocOf(cfg, hits, docs[k]))
    && TotalHits(docs) == |hits|
  }

  lemma {:induction false} DocsTotal(cfg: PipelineConfig, groups: seq<Group>)
    requires Inhabited(groups)
    ensures TotalHits(Docs(cfg, groups)) == TotalMembers(groups)
  {
    if groups != [] {
      var n := |groups| - 1;
      DocsTotal(cfg, groups[..n]);
      assert Docs(cfg, groups)[..n] == Docs(cfg, groups[..n]);
    }
  }

  lemma DocsOfGroups(cfg: PipelineConfig, hits: seq<Hit>, groups: seq<Group>)
    requires GroupedWell(cfg, hits, groups)
    ensures Inhabited(groups) && DocsWell(cfg, hits, Docs(cfg, groups))
  {
    DocsTotal(cfg, groups);
  }

  lemma {:induction false} TotalInsert(docs: seq<Doc>, d: Doc)
    ensures TotalHits(Insert(docs, d, DocGe)) == TotalHits(docs) + d.hitCount
  {
    if docs == [] || DocGe(docs[|docs| - 1], d) {
      assert (docs + [d])[..|docs|] == docs;
    } else {
      var front, last := docs[..|docs| - 1], docs[|docs| - 1];
      TotalInsert(front, d);
      assert (Insert(front, d, DocGe) + [last])[..|docs|] == Insert(front, d, DocGe);
    }
  }

  lemma {:induction false} TotalSort(docs: seq<Doc>)
    ensures TotalHits(Sort(docs, DocGe)) == TotalHits(docs)
  {
    if docs != [] {
      TotalSort(docs[..|docs| - 1]);
      TotalInsert(Sort(docs[..|docs| - 1], DocGe), docs[|docs| - 1]);
    }
  }

  lemma SortedDocsWell(cfg: PipelineConfig, hits: seq<Hit>, docs: seq<Doc>)
    requires DocsWell(cfg, hits, docs)
    ensures DocsWell(cfg, hits, Sort(docs, DocGe)) && Sorted(Sort(docs, DocGe), DocGe)
  {
    var ranked := Sort(docs, DocGe);
    DocOrder();
    SortSorts(docs, DocGe);
    SameElements(docs, ranked);
    assert NoDuplicates(docs);
    SameNoDuplicates(docs, ranked);
    TotalSort(docs);
    forall k | 0 <= k < |ranked| ensures DocOf(cfg, hits, ranked[k]) {
      assert ranked[k] in docs;
    }
    forall j, k | 0 <= j < k < |ranked| ensures ranked[j].key != ranked[k].key {
      assert ranked[j] in docs && ranked[k] in docs && ranked[j] != ranked[k];
    }
  }

  /** `_collapse_hits`: every hit is counted in exactly one document, and the documents are in rank order. */
  method Collapse(cfg: PipelineConfig, hits: seq<Hit>) returns (r: Result<seq<Doc>, RetrievalError>)
    ensures r.Ok? <==> AllKeyed(cfg, hits)
    ensures r.Ok? ==> DocsWell(cfg, hits, r.value) && Sorted(r.value, DocGe)
  {
    if hits == [] {
      return Ok([]);
    }
    var groups :- GroupHits(cfg, hits);
    DocsOfGroups(cfg, hits, groups);
    var docs := RenderDocs(cfg, groups);
    SortedDocsWell(cfg, hits, docs);
    return Ok(Sort(docs, DocGe));
  }

  datatype PostResult = PostResult(hits: seq<Hit>, documents: seq<Doc>)

  ghost predicate IsPostResult(cfg: PipelineConfig, hits: seq<Hit>, r: PostResult) {
    && r.hits == Deduplicated(cfg, SortHits(hits))
    && exists docs: seq<Doc> ::
         && DocsWell(cfg, r.hits, docs) && Sorted(docs, DocGe)
         && r.documents == (if cfg.maxDocuments.Some? then Take(docs, cfg.maxDocuments.value) else docs)
  }

  /** `run` without rerankers: sort, deduplicate, collapse, sort again, truncate. */
  method Run(cfg: PipelineConfig, hits: seq<Hit>) returns (r: Result<PostResult, RetrievalError>)
    ensures r.Ok? <==> AllKeyed(cfg, Deduplicated(cfg, SortHits(hits)))
    ensures r.Ok? ==> IsPostResult(cfg, hits, r.value)
  {
    var ordered := SortHits(hits);
    var deduped := Deduplicate(cfg, ordered);
    var documents :- Collapse(cfg, deduped);
    SortedUnchanged(documents, DocGe);
    var reranked := Sort(documents, DocGe);
    if cfg.maxDocuments.Some? {
      return Ok(PostResult(deduped, Take(reranked, cfg.maxDocuments.value)));
    }
    return Ok(PostResult(deduped, reranked));
  }

  // ---------- evidence ----------

  function AllChunks(docs: seq<Doc>): seq<Hit> {
    if docs == [] then [] else AllChunks(docs[..|docs| - 1]) + docs[|docs| - 1].chunks
  }

  lemma {:induction false} AllChunksGrow(docs: seq<Doc>, k: nat)
    requires k <= |docs|
    ensures AllChunks(docs[..k]) <= AllChunks(docs)
    decreases |docs|
  {
    if k < |docs| {
      AllChunksGrow(docs[..|docs| - 1], k);
      assert docs[..|docs| - 1][..k] == docs[..k];
    } else {
      assert docs[..k] == docs;
    }
  }

  /** `_select_evidence_hits`: the chunks of the documents in order, or else the hits themselves. */
  method SelectEvidence(result: PostResult, finalK: nat) returns (evidence: seq<Hit>)
    ensures evidence == Evidence(result, finalK)
  {
    var hits: seq<Hit> := [];
    var k := 0;
    while k < |result.documents|
      invariant 0 <= k <= |result.documents|
      invariant hits == AllChunks(result.documents[..k])
      invariant k > 0 ==> |hits| < finalK
    {
      assert result.documents[..k + 1][..k] == result.documents[..k];
      hits := hits + result.documents[k].chunks;
      k := k + 1;
      AllChunksGrow(result.documents, k);
      if |hits| >= finalK {
        return hits[..finalK];
      }
    }
    assert result.documents[..k] == result.documents;
    return Take(result.hits, finalK);
  }

  /** Each document of the truncated list shows all its hits or `k` of them, so together they show `k` or all. */
  lemma {:induction false} EnoughChunks(docs: seq<Doc>, k: nat)
    requires forall i :: 0 <= i < |docs| ==> docs[i].hitCount >= 1 && |docs[i].chunks| == (if docs[i].hitCount < k then docs[i].hitCount else k)
    ensures k >= 1 ==> |AllChunks(docs)| >= if |docs| < k then |docs| else k
    ensures |AllChunks(docs)| >= if TotalHits(docs) < k then TotalHits(docs) else k
    ensures |AllChunks(docs)| <= TotalHits(docs)
  {
    if docs != [] {
      EnoughChunks(docs[..|docs| - 1], k);
    }
  }

  /** The hits a document shows are hits of its key, no hit twice. */
  lemma ChunksOfDoc(cfg: PipelineConfig, hits: seq<Hit>, d: Doc)
    requires DocOf(cfg, hits, d) && NoDuplicates(hits)
    ensures d.hitCount >= 1 && |d.chunks| == if d.hitCount < cfg.maxChunks then d.hitCount else cfg.maxChunks
    ensures NoDuplicates(d.chunks)
    ensures forall h :: h in d.chunks ==> h in hits && cfg.documentKey(h) == Some(d.key)
  {
    var members := Members(cfg, hits, d.key);
    var ranked := SortHits(members);
    MembersOf(cfg, hits, d.key);
    HitOrder();
    SortSorts(members, HitGe);
    SameNoDuplicates(members, ranked);
    SameElements(members, ranked);
    assert d.chunks <= ranked;
    forall h | h in d.chunks ensures h in ranked {
    }
  }

  lemma {:induction false} MembersOf(cfg: PipelineConfig, hits: seq<Hit>, key: string)
    requires NoDuplicates(hits)
    ensures NoDuplicates(Members(cfg, hits, key))
    ensures forall h :: h in Members(cfg, hits, key) <==> h in hits && cfg.documentKey(h) == Some(key)
  {
    if hits != [] {
      var front, last := hits[..|hits| - 1], hits[|hits| - 1];
      MembersOf(cfg, front, key);
      assert last !in front;
      assert forall h :: h in hits <==> h in front || h == last;
    }
  }

  lemma {:induction false} ChunksDistinct(cfg: PipelineConfig, hits: seq<Hit>, docs: seq<Doc>)
    requires NoDuplicates(hits) && DistinctDocs(docs) && forall k :: 0 <= k < |docs| ==> DocOf(cfg, hits, docs[k])
    ensures NoDuplicates(AllChunks(docs))
    ensures forall h :: h in AllChunks(docs) ==> h in hits && exists k :: 0 <= k < |docs| && cfg.documentKey(h) == Some(docs[k].key)
  {
    if docs != [] {
      var n := |docs| - 1;
      ChunksDistinct(cfg, hits, docs[..n]);
      ChunksOfDoc(cfg, hits, docs[n]);
      var front, last := AllChunks(docs[..n]), docs[n].chunks;
      forall h | h in front ensures h !in last && exists k :: 0 <= k < |docs| && cfg.documentKey(h) == Some(docs[k].key) {
        var k :| 0 <= k < n && cfg.documentKey(h) == Some(docs[..n][k].key);
        assert docs[..n][k].key == docs[k].key != docs[n].key;
      }
      AppendDistinct(front, last);
      assert forall h :: h in AllChunks(docs) <==> h in front || h in last;
    }
  }

  lemma AppendDistinct<T>(a: seq<T>, b: seq<T>)
    requires NoDuplicates(a) && NoDuplicates(b) && forall x :: x in a ==> x !in b
    ensures NoDuplicates(a + b)
  {
    forall i, j | 0 <= i < j < |a + b| ensures (a + b)[i] != (a + b)[j] {
      if i < |a| <= j {
        assert a[i] in a && b[j - |a|] in b;
      }
    }
  }

  lemma DedupedDistinct(cfg: PipelineConfig, hits: seq<Hit>)
    requires cfg.dedup
    ensures NoDuplicates(Deduplicated(cfg, hits))
  {
    UniqueRepresents(cfg, hits);
    HitOrder();
    SortSorts(Unique(cfg, hits), HitGe);
    assert NoDuplicates(Unique(cfg, hits));
    SameNoDuplicates(Unique(cfg, hits), SortHits(Unique(cfg, hits)));
  }

  lemma TakeDistinct(s: seq<Hit>, k: nat)
    requires NoDuplicates(s)
    ensures NoDuplicates(Take(s, k)) && forall h :: h in Take(s, k) ==> h in s
  {
    assert forall h :: h in Take(s, k) ==> exists i :: 0 <= i < |Take(s, k)| && Take(s, k)[i] == h && s[i] == h;
  }

  lemma DocsShown(cfg: PipelineConfig, hits: seq<Hit>, docs: seq<Doc>, k: nat)
    requires k >= 1 && cfg.maxChunks == k && NoDuplicates(hits) && DocsWell(cfg, hits, docs)
    ensures |AllChunks(Take(docs, k))| >= if |hits| < k then |hits| else k
    ensures |hits| < k ==> |AllChunks(Take(docs, k))| == |hits|
    ensures NoDuplicates(AllChunks(Take(docs, k)))
    ensures forall h :: h in AllChunks(Take(docs, k)) ==> h in hits
  {
    forall i | 0 <= i < |docs| ensures docs[i].hitCount >= 1 && |docs[i].chunks| == (if docs[i].hitCount < k then docs[i].hitCount else k) {
      ChunksOfDoc(cfg, hits, docs[i]);
    }
    var shown := Take(docs, k);
    EnoughChunks(docs, k);
    EnoughChunks(shown, k);
    DocsWithinHits(docs);
    ChunksDistinct(cfg, hits, shown);
  }

  lemma {:induction false} DocsWithinHits(docs: seq<Doc>)
    requires forall i :: 0 <= i < |docs| ==> docs[i].hitCount >= 1
    ensures |docs| <= TotalHits(docs)
  {
    if docs != [] {
      DocsWithinHits(docs[..|docs| - 1]);
    }
  }

  /** What `_select_evidence_hits` returns, by definition. */
  function Evidence(result: PostResult, finalK: nat): seq<Hit> {
    if |AllChunks(result.documents)| >= finalK && result.documents != [] then AllChunks(result.documents)[..finalK]
    else Take(result.hits, finalK)
  }

  /**
   With both limits set to `k`, the evidence is exactly `min(k, n)` distinct hits of the n
   that deduplication left, and the fallback is taken exactly when n < k.
   */
  lemma EvidenceIsExact(cfg: PipelineConfig, hits: seq<Hit>, result: PostResult, k: nat)
    requires k >= 1 && cfg.dedup && cfg.maxChunks == k && cfg.maxDocuments == Some(k)
    requires IsPostResult(cfg, hits, result)
    ensures |Evidence(result, k)| == if |result.hits| < k then |result.hits| else k
    ensures NoDuplicates(Evidence(result, k))
    ensures forall h :: h in Evidence(result, k) ==> h in result.hits
    ensures |AllChunks(result.documents)| < k <==> |result.hits| < k
  {
    DedupedDistinct(cfg, SortHits(hits));
    var docs: seq<Doc> :| DocsWell(cfg, result.hits, docs) && Sorted(docs, DocGe) && result.documents == Take(docs, k);
    DocsShown(cfg, result.hits, docs, k);
    if |result.hits| >= k {
      TakeDistinct(AllChunks(result.documents), k);
    } else {
      TakeDistinct(result.hits, k);
    }
  }
}
