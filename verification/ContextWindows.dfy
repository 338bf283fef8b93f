/**
 Ordering the chunks of a document and grouping them into windows (`_resolve_chunks`,
 `_build_windows`, `_should_merge_chunks`, pkg/vectors/context_assembly.py).
 */
module ContextWindows {
  import opened Prelude
  import opened StableSort

  /**
   An order value: a number, text that parses as a number, or anything else, given by its
   place among such values.
   */
  datatype OrderValue = Number(n: real) | NumericText(n: real) | Other(place: real)

  /** A retrieved chunk with its text, and the first order field that has a value. */
  datatype Chunk = Chunk(id: nat, text: string, order: Option<(string, OrderValue)>)

  /** `adjacent` is the test whether an order field counts positions. */
  datatype WindowConfig = WindowConfig(
    mergeAdjacent: bool,
    gap: int,
    maxChunks: int,
    chunkSeparator: string,
    windowSeparator: string,
    adjacent: string -> bool,
    header: (nat, seq<Chunk>) -> Option<string>)

  /** The bounds the configuration model enforces. */
  predicate ValidWindowConfig(cfg: WindowConfig) {
    cfg.gap >= 0 && cfg.maxChunks > 0
  }

  // ---------- order ----------

  /** A chunk that survived normalisation, with its sort key. */
  datatype Resolved = Resolved(chunk: Chunk, group: int, value: real, index: int)

  function SortKey(order: Option<(string, OrderValue)>): (int, real) {
    match order
    case None => (2, 0.0)
    case Some((_, Number(n))) => (0, n)
    case Some((_, NumericText(n))) => (0, n)
    case Some((_, Other(place))) => (1, place)
  }

  function Resolve(chunk: Chunk, index: int): Resolved {
    var key := SortKey(chunk.order);
    Resolved(chunk, key.0, key.1, index)
  }

  /** The order of the key tuples (group, value, original index). */
  predicate KeyLe(a: Resolved, b: Resolved) {
    || a.group < b.group
    || (a.group == b.group && a.value < b.value)
    || (a.group == b.group && a.value == b.value && a.index <= b.index)
  }

  lemma KeyOrder()
    ensures IsOrder(KeyLe)
  {
  }

  /** The chunks kept of a document, in input order; `index` counts the dropped ones too. */
  function Kept(chunks: seq<Chunk>, normalize: string -> string, dropEmpty: bool): seq<Resolved> {
    if chunks == [] then [] else
    var last := chunks[|chunks| - 1];
    var text := normalize(last.text);
    Kept(chunks[..|chunks| - 1], normalize, dropEmpty)
      + (if dropEmpty && text == "" then [] else [Resolve(last.(text := text), |chunks| - 1)])
  }

  function Chunks(resolved: seq<Resolved>): (r: seq<Chunk>)
    ensures |r| == |resolved|
  {
    seq(|resolved|, i requires 0 <= i < |resolved| => resolved[i].chunk)
  }

  function Ordered(chunks: seq<Chunk>, normalize: string -> string, dropEmpty: bool): seq<Resolved> {
    Sort(Kept(chunks, normalize, dropEmpty), KeyLe)
  }

  predicate FromInput(r: Resolved, chunks: seq<Chunk>, normalize: string -> string, dropEmpty: bool) {
    && 0 <= r.index < |chunks|
    && r == Resolve(chunks[r.index].(text := normalize(chunks[r.index].text)), r.index)
    && !(dropEmpty && r.chunk.text == "")
  }

  lemma {:induction false} KeptFromInput(chunks: seq<Chunk>, normalize: string -> string, dropEmpty: bool)
    ensures var kept := Kept(chunks, normalize, dropEmpty);
      && NoDuplicates(kept)
      && (forall r :: r in kept <==> FromInput(r, chunks, normalize, dropEmpty))
  {
    if chunks != [] {
      var n := |chunks| - 1;
      KeptFromInput(chunks[..n], normalize, dropEmpty);
      var before, kept := Kept(chunks[..n], normalize, dropEmpty), Kept(chunks, normalize, dropEmpty);
      forall r ensures r in kept <==> FromInput(r, chunks, normalize, dropEmpty) {
        assert r in before <==> FromInput(r, chunks, normalize, dropEmpty) && r.index < n;
      }
      assert kept != before ==> kept[|before|] !in before;
    }
  }

  /**
   Resolving drops exactly the empty chunks (when asked to), loses and repeats no other, and
   orders them by group, value and original position.
   */
  lemma ResolvedInOrder(chunks: seq<Chunk>, normalize: string -> string, dropEmpty: bool)
    ensures var ordered := Ordered(chunks, normalize, dropEmpty);
      && (forall r :: r in ordered <==> FromInput(r, chunks, normalize, dropEmpty))
      && Sorted(ordered, KeyLe)
      && (forall j, k :: 0 <= j < k < |ordered| ==> ordered[j].index != ordered[k].index)
  {
    var kept, ordered := Kept(chunks, normalize, dropEmpty), Ordered(chunks, normalize, dropEmpty);
    KeptFromInput(chunks, normalize, dropEmpty);
    KeyOrder();
    SortSorts(kept, KeyLe);
    SameElements(kept, ordered);
    SameNoDuplicates(kept, ordered);
    forall j, k | 0 <= j < k < |ordered| ensures ordered[j].index != ordered[k].index {
      assert FromInput(ordered[j], chunks, normalize, dropEmpty) && FromInput(ordered[k], chunks, normalize, dropEmpty);
    }
  }

  /** The loop of `_resolve_chunks`, and its sort. */
  method ResolveChunks(chunks: seq<Chunk>, normalize: string -> string,
                       dropEmpty: bool) returns (ordered: seq<Resolved>)
    ensures ordered == Ordered(chunks, normalize, dropEmpty)
  {
    var resolved: seq<Resolved> := [];
    var index := 0;
    while index < |chunks|
      invariant 0 <= index <= |chunks|
      invariant resolved == Kept(chunks[..index], normalize, dropEmpty)
    {
      var text := normalize(chunks[index].text);
      assert chunks[..index + 1][..index] == chunks[..index];
      if !(dropEmpty && text == "") {
        resolved := resolved + [Resolve(chunks[index].(text := text), index)];
      }
      index := index + 1;
    }
    assert chunks[..|chunks|] == chunks;
    ordered := Sort(resolved, KeyLe);
  }

  // ---------- windows ----------

  /** The two values may share a window: the same position field, and numbers at most a gap apart. */
  predicate Linked(cfg: WindowConfig, previous: Chunk, current: Chunk) {
    && cfg.mergeAdjacent
    && previous.order.Some? && current.order.Some?
    && previous.order.value.0 == current.order.value.0
    && cfg.adjacent(previous.order.value.0)
    && previous.order.value.1.Number? && current.order.value.1.Number?
    && 0.0 <= current.order.value.1.n - previous.order.value.1.n <= cfg.gap as real
  }

  /** `_should_merge_chunks`. */
  predicate ShouldMerge(cfg: WindowConfig, previous: Chunk, current: Chunk, size: nat) {
    cfg.mergeAdjacent && size < cfg.maxChunks && Linked(cfg, previous, current)
  }

  predicate ValidWindow(cfg: WindowConfig, window: seq<Chunk>) {
    && 1 <= |window| <= cfg.maxChunks
    && (forall i :: 0 < i < |window| ==> Linked(cfg, window[i - 1], window[i]))
  }

  function Flatten<T>(groups: seq<seq<T>>): seq<T> {
    if groups == [] then [] else groups[0] + Flatten(groups[1..])
  }

  lemma {:induction false} FlattenAppend<T>(groups: seq<seq<T>>, last: seq<T>)
    ensures Flatten(groups + [last]) == Flatten(groups) + last
  {
    if groups == [] {
      assert groups + [last] == [last];
    } else {
      FlattenAppend(groups[1..], last);
      assert (groups + [last])[1..] == groups[1..] + [last];
    }
  }

  /** A grouping of the chunks, in order, into valid windows. */
  predicate IsGrouping(cfg: WindowConfig, windows: seq<seq<Chunk>>, chunks: seq<Chunk>) {
    Flatten(windows) == chunks && forall k :: 0 <= k < |windows| ==> ValidWindow(cfg, windows[k])
  }

  /** How many chunks of `rest` join a window that has `size` chunks and ends with `last`. */
  function Extent(cfg: WindowConfig, size: nat, last: Chunk, rest: seq<Chunk>): (n: nat)
    ensures n <= |rest|
    decreases rest
  {
    if rest == [] || !ShouldMerge(cfg, last, rest[0], size) then 0
    else 1 + Extent(cfg, size + 1, rest[0], rest[1..])
  }

  /** The size of the first window. */
  function Reach(cfg: WindowConfig, chunks: seq<Chunk>): (n: nat)
    requires chunks != []
    ensures 1 <= n <= |chunks|
  {
    1 + Extent(cfg, 1, chunks[0], chunks[1..])
  }

  /** Windows taken one at a time, each as large as it can be. */
  function Greedy(cfg: WindowConfig, chunks: seq<Chunk>): seq<seq<Chunk>> {
    if chunks == [] then [] else
    var n := Reach(cfg, chunks);
    [chunks[..n]] + Greedy(cfg, chunks[n..])
  }

  /** The rest of the grouping while the loop has `current` open. */
  function Pending(cfg: WindowConfig, current: seq<Chunk>, rest: seq<Chunk>): seq<seq<Chunk>> {
    if current == [] then Greedy(cfg, rest) else
    var n := Extent(cfg, |current|, current[|current| - 1], rest);
    [current + rest[..n]] + Greedy(cfg, rest[n..])
  }

  lemma PendingOpens(cfg: WindowConfig, rest: seq<Chunk>)
    requires rest != []
    ensures Pending(cfg, [], rest) == Pending(cfg, [rest[0]], rest[1..])
  {
    var n := Extent(cfg, 1, rest[0], rest[1..]);
    assert rest[..1 + n] == [rest[0]] + rest[1..][..n];
    assert rest[1 + n..] == rest[1..][n..];
  }

  lemma PendingJoins(cfg: WindowConfig, current: seq<Chunk>, rest: seq<Chunk>)
    requires current != [] && rest != [] && ShouldMerge(cfg, current[|current| - 1], rest[0], |current|)
    ensures Pending(cfg, current, rest) == Pending(cfg, current + [rest[0]], rest[1..])
  {
    var n := Extent(cfg, |current| + 1, rest[0], rest[1..]);
    assert current + rest[..1 + n] == current + [rest[0]] + rest[1..][..n];
    assert rest[1 + n..] == rest[1..][n..];
  }

  lemma PendingCloses(cfg: WindowConfig, current: seq<Chunk>, rest: seq<Chunk>)
    requires current != []
    requires rest != [] ==> !ShouldMerge(cfg, current[|current| - 1], rest[0], |current|)
    ensures Pending(cfg, current, rest) == [current] + Pending(cfg, [], rest)
  {
    assert current + rest[..0] == current;
    assert rest[0..] == rest;
  }

  /** The loop of `_build_windows`; it partitions the chunks in order, and no grouping needs fewer windows. */
  method GroupChunks(cfg: WindowConfig, ordered: seq<Chunk>) returns (windows: seq<seq<Chunk>>)
    requires ValidWindowConfig(cfg)
    ensures IsGrouping(cfg, windows, ordered)
    ensures forall other :: IsGrouping(cfg, other, ordered) ==> |windows| <= |other|
    ensures windows == Greedy(cfg, ordered)
  {
    windows := GroupLoop(cfg, ordered);
    GreedyIsGrouping(cfg, ordered);
    forall other | IsGrouping(cfg, other, ordered) ensures |windows| <= |other| {
      GreedyIsSmallest(cfg, ordered, other);
    }
  }

  method GroupLoop(cfg: WindowConfig, ordered: seq<Chunk>) returns (windows: seq<seq<Chunk>>)
    ensures windows == Greedy(cfg, ordered)
  {
    windows := [];
    var current: seq<Chunk> := [];
    var i := 0;
    assert ordered[0..] == ordered;
    while i < |ordered|
      invariant 0 <= i <= |ordered|
      invariant windows + Pending(cfg, current, ordered[i..]) == Greedy(cfg, ordered)
    {
      var chunk := ordered[i];
      assert ordered[i..][1..] == ordered[i + 1..];
      if current == [] {
        PendingOpens(cfg, ordered[i..]);
        current := [chunk];
      } else if ShouldMerge(cfg, current[|current| - 1], chunk, |current|) {
        PendingJoins(cfg, current, ordered[i..]);
        current := current + [chunk];
      } else {
        PendingCloses(cfg, current, ordered[i..]);
        PendingOpens(cfg, ordered[i..]);
        windows := windows + [current];
        current := [chunk];
      }
      i := i + 1;
    }
    if current != [] {
      PendingCloses(cfg, current, []);
      windows := windows + [current];
    }
  }

  lemma {:induction false} ExtentLinks(cfg: WindowConfig, size: nat, last: Chunk, rest: seq<Chunk>)
    requires size <= cfg.maxChunks
    ensures var n := Extent(cfg, size, last, rest);
      && size + n <= cfg.maxChunks
      && (forall i :: 0 < i <= n ==> Linked(cfg, ([last] + rest)[i - 1], ([last] + rest)[i]))
    decreases rest
  {
    if rest != [] && ShouldMerge(cfg, last, rest[0], size) {
      ExtentLinks(cfg, size + 1, rest[0], rest[1..]);
      assert [rest[0]] + rest[1..] == rest;
      forall i | 0 < i <= Extent(cfg, size, last, rest) ensures Linked(cfg, ([last] + rest)[i - 1], ([last] + rest)[i]) {
        if i > 1 {
          assert Linked(cfg, rest[i - 2], rest[i - 1]);
        }
      }
    }
  }

  lemma {:induction false} GreedyIsGrouping(cfg: WindowConfig, chunks: seq<Chunk>)
    requires ValidWindowConfig(cfg)
    ensures IsGrouping(cfg, Greedy(cfg, chunks), chunks)
    decreases |chunks|
  {
    if chunks != [] {
      var n := Reach(cfg, chunks);
      ExtentLinks(cfg, 1, chunks[0], chunks[1..]);
      assert [chunks[0]] + chunks[1..] == chunks;
      GreedyIsGrouping(cfg, chunks[n..]);
      assert chunks[..n] + chunks[n..] == chunks;
      assert ValidWindow(cfg, chunks[..n]);
    }
  }

  /** A shorter open window can take at least as many chunks. */
  lemma {:induction false} ExtentAntitone(cfg: WindowConfig, small: nat, large: nat, last: Chunk, rest: seq<Chunk>)
    requires small <= large
    ensures Extent(cfg, large, last, rest) <= Extent(cfg, small, last, rest)
    decreases rest
  {
    if rest != [] && ShouldMerge(cfg, last, rest[0], large) {
      ExtentAntitone(cfg, small + 1, large + 1, rest[0], rest[1..]);
    }
  }

  /** Starting one chunk later never needs more windows. */
  lemma {:induction false} GreedyDropOne(cfg: WindowConfig, chunks: seq<Chunk>)
    requires chunks != []
    ensures |Greedy(cfg, chunks[1..])| <= |Greedy(cfg, chunks)|
    decreases |chunks|, 1
  {
    var n := Reach(cfg, chunks);
    if n > 1 {
      var tail := chunks[1..];
      assert tail[0] == chunks[1] && tail[1..] == chunks[2..];
      ExtentAntitone(cfg, 1, 2, tail[0], tail[1..]);
      var m := Reach(cfg, tail);
      assert n <= 1 + m;
      GreedyDrop(cfg, chunks[n..], 1 + m - n);
      assert chunks[n..][1 + m - n..] == tail[m..];
    }
  }

  lemma {:induction false} GreedyDrop(cfg: WindowConfig, chunks: seq<Chunk>, k: nat)
    requires k <= |chunks|
    ensures |Greedy(cfg, chunks[k..])| <= |Greedy(cfg, chunks)|
    decreases |chunks|, 2, k
  {
    if k == 0 {
      assert chunks[0..] == chunks;
    } else {
      GreedyDropOne(cfg, chunks);
      GreedyDrop(cfg, chunks[1..], k - 1);
      assert chunks[1..][k - 1..] == chunks[k..];
    }
  }

  /** A valid first window is no longer than the greedy one. */
  lemma {:induction false} WindowWithinExtent(cfg: WindowConfig, size: nat, last: Chunk, rest: seq<Chunk>, n: nat)
    requires n <= |rest| && size + n <= cfg.maxChunks
    requires forall i :: 0 < i <= n ==> Linked(cfg, ([last] + rest)[i - 1], ([last] + rest)[i])
    ensures n <= Extent(cfg, size, last, rest)
    decreases n
  {
    if n > 0 {
      assert Linked(cfg, ([last] + rest)[0], ([last] + rest)[1]);
      forall i | 0 < i <= n - 1 ensures Linked(cfg, ([rest[0]] + rest[1..])[i - 1], ([rest[0]] + rest[1..])[i]) {
        assert Linked(cfg, ([last] + rest)[i], ([last] + rest)[i + 1]);
      }
      WindowWithinExtent(cfg, size + 1, rest[0], rest[1..], n - 1);
    }
  }

  lemma {:induction false} GreedyIsSmallest(cfg: WindowConfig, chunks: seq<Chunk>, other: seq<seq<Chunk>>)
    requires IsGrouping(cfg, other, chunks)
    ensures |Greedy(cfg, chunks)| <= |other|
    decreases |other|
  {
    if other != [] {
      var window := other[0];
      assert ValidWindow(cfg, window);
      var m := |window|;
      assert chunks == window + Flatten(other[1..]);
      var n := Reach(cfg, chunks);
      FirstWindow(cfg, chunks, window);
      assert chunks[m..] == Flatten(other[1..]);
      assert forall k :: 0 <= k < |other[1..]| ==> other[1..][k] == other[k + 1];
      GreedyIsSmallest(cfg, chunks[m..], other[1..]);
      GreedyDrop(cfg, chunks[m..], n - m);
      assert chunks[m..][n - m..] == chunks[n..];
    }
  }

  lemma FirstWindow(cfg: WindowConfig, chunks: seq<Chunk>, window: seq<Chunk>)
    requires window <= chunks && ValidWindow(cfg, window)
    ensures |window| <= Reach(cfg, chunks)
  {
    assert [chunks[0]] + chunks[1..] == chunks;
    forall i | 0 < i <= |window| - 1
      ensures Linked(cfg, ([chunks[0]] + chunks[1..])[i - 1], ([chunks[0]] + chunks[1..])[i])
    {
      assert window[i - 1] == chunks[i - 1] && window[i] == chunks[i];
    }
    WindowWithinExtent(cfg, 1, chunks[0], chunks[1..], |window| - 1);
  }
}
