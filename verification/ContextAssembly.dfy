/**
 Fitting windows and documents into their character budgets (`assemble`,
 `_assemble_document`, `_fit_document_text`, `_truncate_text`,
 pkg/vectors/context_assembly.py).
 */
module ContextAssembly {
  import opened Prelude
  import opened StableSort
  import opened ContextWindows

  datatype Window = Window(index: nat, chunks: seq<Chunk>, text: string, truncated: bool)

  datatype AssemblyConfig = AssemblyConfig(
    window: WindowConfig,
    maxDocuments: Option<nat>,
    maxTotalChars: Option<nat>,
    maxDocumentChars: Option<nat>,
    documentSeparator: string,
    headerBodySeparator: string,
    dropEmpty: bool,
    ellipsis: string,
    isSpace: char -> bool,
    normalize: string -> string)

  predicate ValidConfig(cfg: AssemblyConfig) {
    && ValidWindowConfig(cfg.window)
    && cfg.maxDocuments != Some(0) && cfg.maxTotalChars != Some(0) && cfg.maxDocumentChars != Some(0)
  }

  // ---------- text ----------

  function Join(parts: seq<string>, separator: string): string {
    if parts == [] then ""
    else if |parts| == 1 then parts[0]
    else Join(parts[..|parts| - 1], separator) + separator + parts[|parts| - 1]
  }

  function RStrip(text: string, isSpace: char -> bool): (r: string)
    ensures r <= text
  {
    if text != "" && isSpace(text[|text| - 1]) then RStrip(text[..|text| - 1], isSpace) else text
  }

  /** `_truncate_text`. */
  function TruncateText(cfg: AssemblyConfig, text: string, limit: int): string {
    if limit <= 0 then ""
    else if |text| <= limit then text
    else if |cfg.ellipsis| >= limit then text[..limit]
    else RStrip(text[..limit - |cfg.ellipsis|], cfg.isSpace) + cfg.ellipsis
  }

  /**
   A truncated text fits; it is the text itself exactly when that fits (and there is room at
   all); otherwise it is a prefix, closed by the ellipsis when the ellipsis leaves room for text.
   */
  lemma TruncatedFits(cfg: AssemblyConfig, text: string, limit: int)
    ensures |TruncateText(cfg, text, limit)| <= if limit <= 0 then 0 else limit
    ensures limit > 0 ==> (TruncateText(cfg, text, limit) == text <==> |text| <= limit)
    ensures |text| > limit > |cfg.ellipsis| ==>
      exists n :: 0 <= n <= limit - |cfg.ellipsis| && TruncateText(cfg, text, limit) == text[..n] + cfg.ellipsis
    ensures |text| > limit > 0 && limit <= |cfg.ellipsis| ==> TruncateText(cfg, text, limit) == text[..limit]
  {
    if |text| > limit > |cfg.ellipsis| {
      var kept := text[..limit - |cfg.ellipsis|];
      var n := |RStrip(kept, cfg.isSpace)|;
      assert RStrip(kept, cfg.isSpace) == kept[..n] == text[..n];
    }
  }

  /** Nothing is left of the text: there is no room or no text, or only white space fits and no ellipsis follows it. */
  predicate BlankCut(cfg: AssemblyConfig, text: string, limit: int) {
    || limit <= 0
    || text == ""
    || (cfg.ellipsis == "" && |text| > limit && forall i :: 0 <= i < limit ==> cfg.isSpace(text[i]))
  }

  lemma {:induction false} StripsToNothing(text: string, isSpace: char -> bool)
    ensures RStrip(text, isSpace) == "" <==> forall i :: 0 <= i < |text| ==> isSpace(text[i])
  {
    if text != "" && isSpace(text[|text| - 1]) {
      var front := text[..|text| - 1];
      StripsToNothing(front, isSpace);
      assert forall i :: 0 <= i < |front| ==> front[i] == text[i];
    }
  }

  lemma TruncatedToNothing(cfg: AssemblyConfig, text: string, limit: int)
    ensures TruncateText(cfg, text, limit) == "" <==> BlankCut(cfg, text, limit)
  {
    if 0 < limit < |text| {
      StripsToNothing(text[..limit], cfg.isSpace);
      if cfg.ellipsis == "" {
        assert text[..limit - |cfg.ellipsis|] == text[..limit];
      }
    }
  }

  // ---------- one document ----------

  /** What separates a window from the text before it. */
  function SeparatorBefore(cfg: AssemblyConfig, header: Option<string>, position: nat): string {
    if position == 0 then (if header.Some? then cfg.headerBodySeparator else "") else cfg.window.windowSeparator
  }

  /** The header and the texts of these windows, separated. */
  function DocumentText(cfg: AssemblyConfig, header: Option<string>, windows: seq<Window>): string {
    if windows == [] then (if header.Some? then header.value else "") else
    var n := |windows| - 1;
    DocumentText(cfg, header, windows[..n]) + SeparatorBefore(cfg, header, n) + windows[n].text
  }

  lemma {:induction false} DocumentTextGrows(cfg: AssemblyConfig, header: Option<string>, windows: seq<Window>, k: nat)
    requires k <= |windows|
    ensures DocumentText(cfg, header, windows[..k]) <= DocumentText(cfg, header, windows)
    decreases |windows|
  {
    if k < |windows| {
      DocumentTextGrows(cfg, header, windows[..|windows| - 1], k);
      assert windows[..|windows| - 1][..k] == windows[..k];
    } else {
      assert windows[..k] == windows;
    }
  }

  /** Every window before `k` fits whole behind the header, and the window at `k` does not. */
  predicate Overflows(cfg: AssemblyConfig, header: Option<string>, windows: seq<Window>, budget: int, k: nat) {
    && k < |windows|
    && |DocumentText(cfg, header, windows[..k])| <= budget < |DocumentText(cfg, header, windows[..k + 1])|
  }

  /** The room that is left for the window at `k` behind the text before it. */
  function Room(cfg: AssemblyConfig, header: Option<string>, windows: seq<Window>, budget: int, k: nat): int
    requires k < |windows|
  {
    budget - |DocumentText(cfg, header, windows[..k])| - |SeparatorBefore(cfg, header, k)|
  }

  /** The first window that does not fit is cut to the room that is left, or dropped when nothing of it would be left. */
  function CutWindow(cfg: AssemblyConfig, window: Window, room: int): seq<Window> {
    if BlankCut(cfg, window.text, room) then []
    else [window.(text := TruncateText(cfg, window.text, room), truncated := true)]
  }

  /** The window that does not fit, and how the kept windows end there. */
  ghost predicate EndsAt(cfg: AssemblyConfig, header: Option<string>, windows: seq<Window>, budget: int, k: nat,
                         kept: seq<Window>) {
    && Overflows(cfg, header, windows, budget, k)
    && kept == windows[..k] + CutWindow(cfg, windows[k], Room(cfg, header, windows, budget, k))
  }

  /** The windows kept: all that fit whole, and what can be shown of the first that does not. */
  ghost predicate KeptPrefix(cfg: AssemblyConfig, header: Option<string>, windows: seq<Window>, budget: Option<int>,
                             kept: seq<Window>) {
    if HeaderFills(header, budget) then kept == []
    else if budget.None? || |DocumentText(cfg, header, windows)| <= budget.value then kept == windows
    else exists k :: 0 <= k < |windows| && EndsAt(cfg, header, windows, budget.value, k, kept)
  }

  datatype Fitted = Fitted(text: string, windows: seq<Window>, truncated: bool)

  predicate HeaderFills(header: Option<string>, budget: Option<int>) {
    header.Some? && budget.Some? && |header.value| >= budget.value
  }

  /**
   What a document with room for at least one character becomes: the text fits; it is the
   whole text exactly when that fits; it is the cut header when the header fills the budget,
   and otherwise the header and the kept windows; and it counts as truncated exactly when
   something was lost or the header fills the budget.
   */
  ghost predicate FitsBudget(cfg: AssemblyConfig, header: Option<string>, windows: seq<Window>, budget: Option<int>,
                             r: Fitted) {
    var whole := DocumentText(cfg, header, windows);
    && (budget.Some? ==> |r.text| <= budget.value)
    && KeptPrefix(cfg, header, windows, budget, r.windows)
    && (r.text == whole <==> budget.None? || |whole| <= budget.value)
    && (r.truncated <==> budget.Some? && (|whole| > budget.value || HeaderFills(header, budget)))
    && r.text == (if HeaderFills(header, budget) then TruncateText(cfg, header.value, budget.value)
                  else DocumentText(cfg, header, r.windows))
  }

  lemma HeaderAloneFits(cfg: AssemblyConfig, header: Option<string>, windows: seq<Window>, budget: int)
    requires budget > 0 && HeaderFills(header, Some(budget))
    ensures FitsBudget(cfg, header, windows, Some(budget), Fitted(TruncateText(cfg, header.value, budget), [], true))
  {
    TruncatedFits(cfg, header.value, budget);
    DocumentTextGrows(cfg, header, windows, 0);
    assert windows[..0] == [];
  }

  lemma WholeTooLong(cfg: AssemblyConfig, header: Option<string>, windows: seq<Window>, budget: int, k: nat)
    requires Overflows(cfg, header, windows, budget, k)
    ensures |DocumentText(cfg, header, windows)| > budget
  {
    DocumentTextGrows(cfg, header, windows, k + 1);
  }

  lemma DocumentTextNext(cfg: AssemblyConfig, header: Option<string>, windows: seq<Window>, k: nat)
    requires k < |windows|
    ensures DocumentText(cfg, header, windows[..k + 1]) ==
      DocumentText(cfg, header, windows[..k]) + SeparatorBefore(cfg, header, k) + windows[k].text
  {
    assert windows[..k + 1][..k] == windows[..k];
  }

  /** The document that ends with what can be shown of the first window that does not fit. */
  lemma CutFits(cfg: AssemblyConfig, header: Option<string>, windows: seq<Window>, budget: int, k: nat)
    requires Overflows(cfg, header, windows, budget, k) && !HeaderFills(header, Some(budget))
    ensures var kept := windows[..k] + CutWindow(cfg, windows[k], Room(cfg, header, windows, budget, k));
      FitsBudget(cfg, header, windows, Some(budget), Fitted(DocumentText(cfg, header, kept), kept, true))
  {
    var room := Room(cfg, header, windows, budget, k);
    var kept := windows[..k] + CutWindow(cfg, windows[k], room);
    WholeTooLong(cfg, header, windows, budget, k);
    DocumentTextNext(cfg, header, windows, k);
    assert EndsAt(cfg, header, windows, budget, k, kept);
    if CutWindow(cfg, windows[k], room) == [] {
      assert kept == windows[..k];
    } else {
      TruncatedFits(cfg, windows[k].text, room);
      assert kept[..k] == windows[..k];
    }
  }

  /** The beginnings that fit are those up to the first window that does not. */
  lemma FitsUpToOverflow(cfg: AssemblyConfig, header: Option<string>, windows: seq<Window>, budget: int, k: nat, n: nat)
    requires Overflows(cfg, header, windows, budget, k) && n <= |windows|
    ensures |DocumentText(cfg, header, windows[..n])| <= budget <==> n <= k
  {
    if n <= k {
      DocumentTextGrows(cfg, header, windows[..k], n);
      assert windows[..k][..n] == windows[..n];
    } else {
      DocumentTextGrows(cfg, header, windows[..n], k + 1);
      assert windows[..n][..k + 1] == windows[..k + 1];
    }
  }

  lemma KeptWithTail(windows: seq<Window>, tail: seq<Window>, k: nat, n: nat)
    requires n <= k < |windows| && |tail| <= 1
    ensures var kept := windows[..k] + tail;
      && n <= |kept| <= |windows| && kept[..n] == windows[..n]
      && (n < |kept| && kept[n] != windows[n] ==> n == |kept| - 1 && [kept[n]] == tail)
  {
  }

  lemma MaximalAt(cfg: AssemblyConfig, header: Option<string>, windows: seq<Window>, budget: int, k: nat,
                  kept: seq<Window>, n: nat)
    requires EndsAt(cfg, header, windows, budget, k, kept)
    requires n <= |windows| && |DocumentText(cfg, header, windows[..n])| <= budget
    ensures n <= |kept| <= |windows| && kept[..n] == windows[..n]
    ensures n < |kept| && kept[n] != windows[n] ==> n == |kept| - 1 && kept[n].truncated
  {
    FitsUpToOverflow(cfg, header, windows, budget, k, n);
    KeptWithTail(windows, CutWindow(cfg, windows[k], Room(cfg, header, windows, budget, k)), k, n);
  }

  /**
   Nothing is dropped that fits: every beginning of the windows that fits behind the header is
   kept whole, at most one window follows it, and that window is a truncated one.
   */
  lemma KeptIsMaximal(cfg: AssemblyConfig, header: Option<string>, windows: seq<Window>, budget: Option<int>,
                      r: Fitted, n: nat)
    requires FitsBudget(cfg, header, windows, budget, r) && !HeaderFills(header, budget)
    requires n <= |windows| && (budget.Some? ==> |DocumentText(cfg, header, windows[..n])| <= budget.value)
    ensures n <= |r.windows| <= |windows| && r.windows[..n] == windows[..n]
    ensures n < |r.windows| && r.windows[n] != windows[n] ==> n == |r.windows| - 1 && r.windows[n].truncated
  {
    if r.windows != windows {
      var k :| 0 <= k < |windows| && EndsAt(cfg, header, windows, budget.value, k, r.windows);
      MaximalAt(cfg, header, windows, budget.value, k, r.windows, n);
    }
  }

  /** `_fit_document_text`. */
  method FitDocumentText(cfg: AssemblyConfig, header: Option<string>, windows: seq<Window>, budget: Option<int>)
    returns (r: Fitted)
    ensures budget.Some? && budget.value <= 0 ==> r == Fitted("", [], false)
    ensures budget.None? || budget.value > 0 ==> FitsBudget(cfg, header, windows, budget, r)
  {
    if budget.Some? && budget.value <= 0 {
      return Fitted("", [], false);
    }
    if header.Some? && budget.Some? && |header.value| >= budget.value {
      HeaderAloneFits(cfg, header, windows, budget.value);
      return Fitted(TruncateText(cfg, header.value, budget.value), [], true);
    }
    r := FitWindows(cfg, header, windows, budget);
  }

  lemma DocumentTextAppend(cfg: AssemblyConfig, header: Option<string>, windows: seq<Window>, window: Window)
    ensures DocumentText(cfg, header, windows + [window]) ==
      DocumentText(cfg, header, windows) + SeparatorBefore(cfg, header, |windows|) + window.text
  {
    assert (windows + [window])[..|windows|] == windows;
  }

  lemma AllFits(cfg: AssemblyConfig, header: Option<string>, windows: seq<Window>, budget: Option<int>)
    requires !HeaderFills(header, budget)
    requires budget.Some? ==> |DocumentText(cfg, header, windows)| <= budget.value
    ensures FitsBudget(cfg, header, windows, budget, Fitted(DocumentText(cfg, header, windows), windows, false))
  {
  }

  method FitWindows(cfg: AssemblyConfig, header: Option<string>, windows: seq<Window>, budget: Option<int>)
    returns (r: Fitted)
    requires !HeaderFills(header, budget) && (budget.Some? ==> budget.value > 0)
    ensures FitsBudget(cfg, header, windows, budget, r)
  {
    var text := if header.Some? then header.value else "";
    var selected: seq<Window> := [];
    while |selected| < |windows|
      invariant |selected| <= |windows| && selected == windows[..|selected|]
      invariant text == DocumentText(cfg, header, selected)
      invariant budget.Some? ==> |text| <= budget.value
    {
      var k := |selected|;
      var separator := SeparatorBefore(cfg, header, k);
      var candidateLength := |text| + |separator| + |windows[k].text|;
      DocumentTextNext(cfg, header, windows, k);
      if budget.Some? && candidateLength > budget.value {
        CutFits(cfg, header, windows, budget.value, k);
        r := CutShort(cfg, header, windows, budget.value, selected, text);
        return;
      }
      text := text + separator + windows[k].text;
      selected := selected + [windows[k]];
    }
    assert selected == windows;
    AllFits(cfg, header, windows, budget);
    return Fitted(text, selected, false);
  }

  /** The end of the loop at a window that does not fit. */
  method CutShort(cfg: AssemblyConfig, header: Option<string>, windows: seq<Window>, budget: int,
                  selected: seq<Window>, text: string)
    returns (r: Fitted)
    requires |selected| < |windows| && selected == windows[..|selected|] && text == DocumentText(cfg, header, selected)
    ensures var k := |selected|;
      r.windows == windows[..k] + CutWindow(cfg, windows[k], Room(cfg, header, windows, budget, k))
    ensures r.truncated && r.text == DocumentText(cfg, header, r.windows)
  {
    var window, separator := windows[|selected|], SeparatorBefore(cfg, header, |selected|);
    var remaining := budget - |text| - |separator|;
    TruncatedToNothing(cfg, window.text, remaining);
    if remaining <= 0 {
      return Fitted(text, selected, true);
    }
    var cut := TruncateText(cfg, window.text, remaining);
    if cut == "" {
      return Fitted(text, selected, true);
    }
    DocumentTextAppend(cfg, header, selected, window.(text := cut, truncated := true));
    return Fitted(text + separator + cut, selected + [window.(text := cut, truncated := true)], true);
  }

  /** A document can count as truncated although nothing was lost, exactly when its whole text is a header that fills the budget. */
  lemma TruncatedWithoutLoss(cfg: AssemblyConfig, header: Option<string>, windows: seq<Window>, budget: Option<int>,
                             r: Fitted)
    requires budget.None? || budget.value > 0
    requires FitsBudget(cfg, header, windows, budget, r)
    ensures r.truncated && r.text == DocumentText(cfg, header, windows) <==>
      budget.Some? && header == Some(DocumentText(cfg, header, windows)) && |header.value| == budget.value
  {
    DocumentTextGrows(cfg, header, windows, 0);
    assert windows[..0] == [];
  }

  /** The smallest such document: a header of one character, a budget of one, and no windows. */
  lemma HeaderFillsBudget(cfg: AssemblyConfig)
    ensures FitsBudget(cfg, Some("h"), [], Some(1), Fitted("h", [], true)) && DocumentText(cfg, Some("h"), []) == "h"
  {
  }

  // ---------- documents that vanish ----------

  /**
   Nothing of the document can be shown: it has no text; or its header fills the budget and is
   cut to nothing; or the first window with any text does not fit and is cut to nothing.
   */
  predicate Vanishes(cfg: AssemblyConfig, header: Option<string>, windows: seq<Window>, budget: Option<int>) {
    || DocumentText(cfg, header, windows) == ""
    || (budget.Some? && HeaderFills(header, budget) && BlankCut(cfg, header.value, budget.value))
    || (budget.Some? && !HeaderFills(header, budget)
        && exists k :: 0 <= k < |windows| && VanishesAt(cfg, header, windows, budget.value, k))
  }

  /** There is no text before the window at `k`, which does not fit and is cut to nothing. */
  predicate VanishesAt(cfg: AssemblyConfig, header: Option<string>, windows: seq<Window>, budget: int, k: nat) {
    && Overflows(cfg, header, windows, budget, k)
    && DocumentText(cfg, header, windows[..k]) == ""
    && BlankCut(cfg, windows[k].text, Room(cfg, header, windows, budget, k))
  }

  /** What is fitted into a budget is empty exactly when nothing can be shown. */
  lemma EmptyIffVanishes(cfg: AssemblyConfig, header: Option<string>, windows: seq<Window>, budget: Option<int>, r: Fitted)
    requires FitsBudget(cfg, header, windows, budget, r) && (budget.Some? ==> budget.value > 0)
    ensures r.text == "" <==> Vanishes(cfg, header, windows, budget)
  {
    if HeaderFills(header, budget) {
      TruncatedToNothing(cfg, header.value, budget.value);
      DocumentTextGrows(cfg, header, windows, 0);
      assert windows[..0] == [];
    } else if budget.Some? && |DocumentText(cfg, header, windows)| > budget.value {
      var k :| 0 <= k < |windows| && EndsAt(cfg, header, windows, budget.value, k, r.windows);
      CutIsEmpty(cfg, header, windows, budget.value, k, r.windows);
    } else if k :| 0 <= k < |windows| && budget.Some? && VanishesAt(cfg, header, windows, budget.value, k) {
      WholeTooLong(cfg, header, windows, budget.value, k);
    }
  }

  lemma CutIsEmpty(cfg: AssemblyConfig, header: Option<string>, windows: seq<Window>, budget: int, k: nat,
                   kept: seq<Window>)
    requires EndsAt(cfg, header, windows, budget, k, kept) && budget > 0 && !HeaderFills(header, Some(budget))
    ensures DocumentText(cfg, header, kept) == "" <==> Vanishes(cfg, header, windows, Some(budget))
  {
    forall j | 0 <= j < |windows| && VanishesAt(cfg, header, windows, budget, j) ensures j == k {
      OverflowIsUnique(cfg, header, windows, budget, j, k);
    }
    CutTextIsEmpty(cfg, header, windows, budget, k);
    WholeTooLong(cfg, header, windows, budget, k);
    assert DocumentText(cfg, header, kept) == "" <==> VanishesAt(cfg, header, windows, budget, k);
  }

  lemma OverflowIsUnique(cfg: AssemblyConfig, header: Option<string>, windows: seq<Window>, budget: int, j: nat, k: nat)
    requires Overflows(cfg, header, windows, budget, j) && Overflows(cfg, header, windows, budget, k)
    ensures j == k
  {
    FitsUpToOverflow(cfg, header, windows, budget, k, j);
    FitsUpToOverflow(cfg, header, windows, budget, j, k);
  }

  lemma CutTextIsEmpty(cfg: AssemblyConfig, header: Option<string>, windows: seq<Window>, budget: int, k: nat)
    requires Overflows(cfg, header, windows, budget, k)
    ensures var room := Room(cfg, header, windows, budget, k);
      DocumentText(cfg, header, windows[..k] + CutWindow(cfg, windows[k], room)) == "" <==>
        DocumentText(cfg, header, windows[..k]) == "" && BlankCut(cfg, windows[k].text, room)
  {
    var room := Room(cfg, header, windows, budget, k);
    TruncatedToNothing(cfg, windows[k].text, room);
    if BlankCut(cfg, windows[k].text, room) {
      assert windows[..k] + CutWindow(cfg, windows[k], room) == windows[..k];
    } else {
      DocumentTextAppend(cfg, header, windows[..k], windows[k].(text := TruncateText(cfg, windows[k].text, room), truncated := true));
    }
  }

  /** A budget leaves no choice: there is one way to fit a document into it. */
  lemma FittedIsUnique(cfg: AssemblyConfig, header: Option<string>, windows: seq<Window>, budget: Option<int>,
                       a: Fitted, b: Fitted)
    requires FitsBudget(cfg, header, windows, budget, a) && FitsBudget(cfg, header, windows, budget, b)
    ensures a == b
  {
    if a.windows != b.windows {
      var j :| 0 <= j < |windows| && EndsAt(cfg, header, windows, budget.value, j, a.windows);
      var k :| 0 <= k < |windows| && EndsAt(cfg, header, windows, budget.value, k, b.windows);
      OverflowIsUnique(cfg, header, windows, budget.value, j, k);
    }
  }

  // ---------- all documents ----------

  /** A retrieved document; its header depends on its position, counted from one. */
  datatype Document = Document(chunks: seq<Chunk>, header: nat -> Option<string>)

  /** `index` is the position of the source document. */
  datatype Assembled = Assembled(index: nat, text: string, header: Option<string>, windows: seq<Window>, truncated: bool)

  datatype Assembly = Assembly(documents: seq<Assembled>, contextText: string)

  function Bodies(chunks: seq<Chunk>): (r: seq<string>)
    ensures |r| == |chunks|
  {
    seq(|chunks|, i requires 0 <= i < |chunks| => chunks[i].text)
  }

  function MakeWindow(cfg: AssemblyConfig, index: nat, chunks: seq<Chunk>): Window {
    var body := Join(Bodies(chunks), cfg.window.chunkSeparator);
    var header := cfg.window.header(index, chunks);
    Window(index, chunks, if header.None? then body else header.value + cfg.headerBodySeparator + body, false)
  }

  /** The groups as windows, numbered from one. */
  function Rendered(cfg: AssemblyConfig, groups: seq<seq<Chunk>>): (r: seq<Window>)
    ensures |r| == |groups|
  {
    seq(|groups|, k requires 0 <= k < |groups| => MakeWindow(cfg, k + 1, groups[k]))
  }

  function WindowsOf(cfg: AssemblyConfig, document: Document): seq<Window> {
    Rendered(cfg, Greedy(cfg.window, Chunks(Ordered(document.chunks, cfg.normalize, cfg.dropEmpty))))
  }

  method RenderWindows(cfg: AssemblyConfig, groups: seq<seq<Chunk>>) returns (windows: seq<Window>)
    ensures windows == Rendered(cfg, groups)
  {
    windows := [];
    while |windows| < |groups|
      invariant |windows| <= |groups| && windows == Rendered(cfg, groups)[..|windows|]
    {
      windows := windows + [MakeWindow(cfg, |windows| + 1, groups[|windows|])];
    }
  }

  /** `_build_windows`. */
  method BuildWindows(cfg: AssemblyConfig, document: Document) returns (windows: seq<Window>)
    requires ValidConfig(cfg)
    ensures windows == WindowsOf(cfg, document)
  {
    var ordered := ResolveChunks(document.chunks, cfg.normalize, cfg.dropEmpty);
    var groups := GroupChunks(cfg.window, Chunks(ordered));
    windows := RenderWindows(cfg, groups);
  }

  /** The windows of a document hold its surviving chunks, each once, in order. */
  lemma WindowsHoldChunks(cfg: AssemblyConfig, document: Document)
    requires ValidConfig(cfg)
    ensures var windows := WindowsOf(cfg, document);
      Flatten(seq(|windows|, k requires 0 <= k < |windows| => windows[k].chunks))
        == Chunks(Ordered(document.chunks, cfg.normalize, cfg.dropEmpty))
  {
    var chunks := Chunks(Ordered(document.chunks, cfg.normalize, cfg.dropEmpty));
    var windows := WindowsOf(cfg, document);
    GreedyIsGrouping(cfg.window, chunks);
    assert seq(|windows|, k requires 0 <= k < |windows| => windows[k].chunks) == Greedy(cfg.window, chunks);
  }

  /** `_assemble_document`; nothing is returned for a document without text. */
  method AssembleDocument(cfg: AssemblyConfig, document: Document, index: nat, budget: Option<int>)
    returns (r: Option<Assembled>)
    requires ValidConfig(cfg) && (budget.Some? ==> budget.value > 0)
    ensures r.Some? ==> AssembledWell(cfg, document, index, budget, r.value)
    ensures r.None? <==> Vanishes(cfg, document.header(index + 1), WindowsOf(cfg, document), budget)
  {
    var windows := BuildWindows(cfg, document);
    var header := document.header(index + 1);
    if (header.None? || header.value == "") && windows == [] {
      return None;
    }
    var fitted := FitDocumentText(cfg, header, windows, budget);
    EmptyIffVanishes(cfg, header, windows, budget, fitted);
    if fitted.text == "" {
      return None;
    }
    return Some(Assembled(index, fitted.text, header, fitted.windows, fitted.truncated));
  }

  ghost predicate AssembledWell(cfg: AssemblyConfig, document: Document, index: nat, budget: Option<int>,
                                a: Assembled) {
    && a.index == index
    && a.text != ""
    && a.header == document.header(index + 1)
    && FitsBudget(cfg, a.header, WindowsOf(cfg, document), budget, Fitted(a.text, a.windows, a.truncated))
  }

  function Texts(documents: seq<Assembled>): (r: seq<string>)
    ensures |r| == |documents|
  {
    seq(|documents|, i requires 0 <= i < |documents| => documents[i].text)
  }

  function ContextText(cfg: AssemblyConfig, documents: seq<Assembled>): string {
    Join(Texts(documents), cfg.documentSeparator)
  }

  lemma ContextTextAppend(cfg: AssemblyConfig, documents: seq<Assembled>, a: Assembled)
    ensures ContextText(cfg, documents + [a]) ==
      ContextText(cfg, documents) + (if documents == [] then "" else cfg.documentSeparator) + a.text
  {
    assert Texts(documents + [a])[..|documents|] == Texts(documents);
  }

  /** `_resolve_document_budget`: what is left for the next document after these. */
  function BudgetAfter(cfg: AssemblyConfig, documents: seq<Assembled>): Option<int> {
    var separator := if documents == [] then "" else cfg.documentSeparator;
    var perDocument := if cfg.maxDocumentChars.Some? then Some(cfg.maxDocumentChars.value as int) else None;
    if cfg.maxTotalChars.None? then perDocument else
    var available := cfg.maxTotalChars.value - |ContextText(cfg, documents)| - |separator|;
    if perDocument.None? || available <= perDocument.value then Some(available) else perDocument
  }

  function Considered(cfg: AssemblyConfig, documents: seq<Document>): seq<Document> {
    if cfg.maxDocuments.Some? && cfg.maxDocuments.value < |documents| then documents[..cfg.maxDocuments.value] else documents
  }

  /** The assembled documents come from these sources in order, each fitted into what the ones before it left. */
  ghost predicate FromSources(cfg: AssemblyConfig, sources: seq<Document>, documents: seq<Assembled>) {
    && (forall k :: 0 <= k < |documents| ==>
          && documents[k].index < |sources|
          && AssembledWell(cfg, sources[documents[k].index], documents[k].index, BudgetAfter(cfg, documents[..k]), documents[k]))
    && (forall j, k :: 0 <= j < k < |documents| ==> documents[j].index < documents[k].index)
  }

  /** Nothing more fits behind these documents. */
  predicate Exhausted(cfg: AssemblyConfig, documents: seq<Assembled>) {
    BudgetAfter(cfg, documents).Some? && BudgetAfter(cfg, documents).value <= 0
  }

  /** The first `k` documents come from the sources before `i`, and the others from later ones. */
  predicate Between(documents: seq<Assembled>, k: nat, i: nat) {
    && k <= |documents|
    && (forall j :: 0 <= j < k ==> documents[j].index < i)
    && (forall j :: k <= j < |documents| ==> i < documents[j].index)
  }

  /** Behind these documents there is room for some text of the source. */
  predicate Showable(cfg: AssemblyConfig, source: Document, i: nat, before: seq<Assembled>) {
    && !Exhausted(cfg, before)
    && !Vanishes(cfg, source.header(i + 1), WindowsOf(cfg, source), BudgetAfter(cfg, before))
  }

  /** A source that is missing could not be shown in what the documents before it left. */
  predicate Missing(cfg: AssemblyConfig, source: Document, i: nat, documents: seq<Assembled>) {
    exists k :: 0 <= k <= |documents| && Between(documents, k, i) && !Showable(cfg, source, i, documents[..k])
  }

  predicate Shown(documents: seq<Assembled>, i: nat) {
    exists k :: 0 <= k < |documents| && documents[k].index == i
  }

  /** Every source is shown, or is missing for want of text or of room. */
  predicate Complete(cfg: AssemblyConfig, sources: seq<Document>, documents: seq<Assembled>) {
    forall i :: 0 <= i < |sources| ==> Shown(documents, i) || Missing(cfg, sources[i], i, documents)
  }

  lemma SourcesAppend(cfg: AssemblyConfig, sources: seq<Document>, documents: seq<Assembled>, a: Assembled)
    requires FromSources(cfg, sources, documents)
    requires a.index < |sources| && AssembledWell(cfg, sources[a.index], a.index, BudgetAfter(cfg, documents), a)
    requires forall k :: 0 <= k < |documents| ==> documents[k].index < a.index
    ensures FromSources(cfg, sources, documents + [a])
  {
    var longer := documents + [a];
    forall k | 0 <= k < |longer|
      ensures AssembledWell(cfg, sources[longer[k].index], longer[k].index, BudgetAfter(cfg, longer[..k]), longer[k])
    {
      assert longer[..k] == documents[..k];
      assert documents[..|documents|] == documents;
    }
  }

  /** What holds of the documents assembled from the first `index` sources. */
  ghost predicate Progress(cfg: AssemblyConfig, sources: seq<Document>, index: nat, assembled: seq<Assembled>)
    requires index <= |sources|
  {
    && (cfg.maxTotalChars.Some? ==> |ContextText(cfg, assembled)| <= cfg.maxTotalChars.value)
    && FromSources(cfg, sources, assembled)
    && (forall k :: 0 <= k < |assembled| ==> assembled[k].index < index)
    && Complete(cfg, sources[..index], assembled)
  }

  lemma MissingStays(cfg: AssemblyConfig, source: Document, i: nat, documents: seq<Assembled>, a: Assembled)
    requires Missing(cfg, source, i, documents) && i < a.index
    ensures Missing(cfg, source, i, documents + [a])
  {
    var k :| 0 <= k <= |documents| && Between(documents, k, i) && !Showable(cfg, source, i, documents[..k]);
    assert (documents + [a])[..k] == documents[..k];
    assert Between(documents + [a], k, i);
  }

  lemma ShownStays(documents: seq<Assembled>, a: Assembled, i: nat)
    requires Shown(documents, i) || a.index == i
    ensures Shown(documents + [a], i)
  {
    if a.index == i {
      assert (documents + [a])[|documents|].index == i;
    } else {
      var k :| 0 <= k < |documents| && documents[k].index == i;
      assert (documents + [a])[k].index == i;
    }
  }

  lemma MissingNow(cfg: AssemblyConfig, source: Document, i: nat, documents: seq<Assembled>)
    requires forall j :: 0 <= j < |documents| ==> documents[j].index < i
    requires !Showable(cfg, source, i, documents)
    ensures Missing(cfg, source, i, documents)
  {
    assert documents[..|documents|] == documents;
    assert Between(documents, |documents|, i);
  }

  lemma CompleteNext(cfg: AssemblyConfig, sources: seq<Document>, index: nat, assembled: seq<Assembled>,
                     document: Option<Assembled>)
    requires index < |sources| && Complete(cfg, sources[..index], assembled)
    requires forall k :: 0 <= k < |assembled| ==> assembled[k].index < index
    requires if document.Some? then document.value.index == index
      else !Showable(cfg, sources[index], index, assembled)
    ensures Complete(cfg, sources[..index + 1], if document.Some? then assembled + [document.value] else assembled)
  {
    var after := if document.Some? then assembled + [document.value] else assembled;
    forall i | 0 <= i < index + 1 ensures Shown(after, i) || Missing(cfg, sources[i], i, after) {
      if i == index && document.None? {
        MissingNow(cfg, sources[i], i, assembled);
      } else if i == index || (document.Some? && Shown(assembled, i)) {
        ShownStays(assembled, document.value, i);
      } else if document.Some? {
        assert sources[..index][i] == sources[i];
        MissingStays(cfg, sources[i], i, assembled, document.value);
      } else {
        assert sources[..index][i] == sources[i];
      }
    }
  }

  /** The sources the loop does not reach are missing for want of room. */
  lemma RestIsMissing(cfg: AssemblyConfig, sources: seq<Document>, index: nat, assembled: seq<Assembled>)
    requires index <= |sources| && Progress(cfg, sources, index, assembled)
    requires index == |sources| || Exhausted(cfg, assembled)
    ensures Complete(cfg, sources, assembled)
  {
    forall i | 0 <= i < |sources| ensures Shown(assembled, i) || Missing(cfg, sources[i], i, assembled) {
      if i < index {
        assert sources[..index][i] == sources[i];
      } else {
        MissingNow(cfg, sources[i], i, assembled);
      }
    }
  }

  lemma ProgressNext(cfg: AssemblyConfig, sources: seq<Document>, index: nat, assembled: seq<Assembled>,
                     document: Option<Assembled>)
    requires index < |sources| && Progress(cfg, sources, index, assembled)
    requires document.Some? ==> AssembledWell(cfg, sources[index], index, BudgetAfter(cfg, assembled), document.value)
    requires document.None? ==> !Showable(cfg, sources[index], index, assembled)
    ensures Progress(cfg, sources, index + 1, if document.Some? then assembled + [document.value] else assembled)
  {
    CompleteNext(cfg, sources, index, assembled, document);
    if document.Some? {
      SourcesAppend(cfg, sources, assembled, document.value);
      ContextTextAppend(cfg, assembled, document.value);
    }
  }

  /**
   `assemble`: the context is the document texts joined by the separator; no budget is
   exceeded; and every considered source is there, unless nothing of it can be shown in what
   the documents before it left.
   */
  method Assemble(cfg: AssemblyConfig, documents: seq<Document>) returns (r: Assembly)
    requires ValidConfig(cfg)
    ensures r.contextText == ContextText(cfg, r.documents)
    ensures cfg.maxTotalChars.Some? ==> |r.contextText| <= cfg.maxTotalChars.value
    ensures FromSources(cfg, Considered(cfg, documents), r.documents)
    ensures Complete(cfg, Considered(cfg, documents), r.documents)
  {
    var sources := Considered(cfg, documents);
    var assembled, contextText, index := AssembleSources(cfg, sources);
    RestIsMissing(cfg, sources, index, assembled);
    return Assembly(assembled, contextText);
  }

  /** One source: it is skipped, or appended behind the separator. */
  method AssembleNext(cfg: AssemblyConfig, sources: seq<Document>, index: nat, assembled: seq<Assembled>,
                      contextText: string, available: Option<int>)
    returns (more: seq<Assembled>, longer: string)
    requires ValidConfig(cfg) && index < |sources| && Progress(cfg, sources, index, assembled)
    requires contextText == ContextText(cfg, assembled)
    requires available == BudgetAfter(cfg, assembled) && (available.Some? ==> available.value > 0)
    ensures Progress(cfg, sources, index + 1, more) && longer == ContextText(cfg, more)
  {
    var document := AssembleDocument(cfg, sources[index], index, available);
    ProgressNext(cfg, sources, index, assembled, document);
    if document.None? {
      return assembled, contextText;
    }
    ContextTextAppend(cfg, assembled, document.value);
    var separator := if assembled == [] then "" else cfg.documentSeparator;
    return assembled + [document.value], contextText + separator + document.value.text;
  }

  lemma NoneAssembled(cfg: AssemblyConfig, sources: seq<Document>)
    ensures Progress(cfg, sources, 0, [])
  {
  }

  method AssembleSources(cfg: AssemblyConfig, sources: seq<Document>)
    returns (assembled: seq<Assembled>, contextText: string, index: nat)
    requires ValidConfig(cfg)
    ensures index <= |sources| && Progress(cfg, sources, index, assembled)
    ensures contextText == ContextText(cfg, assembled)
    ensures index == |sources| || Exhausted(cfg, assembled)
  {
    assembled, contextText, index := [], "", 0;
    NoneAssembled(cfg, sources);
    var full := false;
    while index < |sources| && !full
      invariant 0 <= index <= |sources| && Progress(cfg, sources, index, assembled)
      invariant contextText == ContextText(cfg, assembled)
      invariant full ==> Exhausted(cfg, assembled)
      decreases |sources| - index, !full
    {
      var available := BudgetAfter(cfg, assembled);
      if available.Some? && available.value <= 0 {
        full := true;
      } else {
        assembled, contextText := AssembleNext(cfg, sources, index, assembled, contextText, available);
        index := index + 1;
        full := cfg.maxTotalChars.Some? && cfg.maxTotalChars.value - |contextText| <= 0;
      }
    }
  }

  /** Every assembled document keeps to the document budget, and without budgets it is whole. */
  lemma DocumentsWithinBudget(cfg: AssemblyConfig, sources: seq<Document>, documents: seq<Assembled>, k: nat)
    requires FromSources(cfg, sources, documents) && k < |documents|
    ensures cfg.maxDocumentChars.Some? ==> |documents[k].text| <= cfg.maxDocumentChars.value
    ensures cfg.maxTotalChars.None? && cfg.maxDocumentChars.None? ==>
      && !documents[k].truncated
      && documents[k].windows == WindowsOf(cfg, sources[documents[k].index])
      && documents[k].text == DocumentText(cfg, documents[k].header, documents[k].windows)
  {
    assert AssembledWell(cfg, sources[documents[k].index], documents[k].index, BudgetAfter(cfg, documents[..k]), documents[k]);
  }

  // ---------- the result is determined ----------

  /** A source that is shown had room, and something of it to show. */
  lemma ShownIsShowable(cfg: AssemblyConfig, sources: seq<Document>, documents: seq<Assembled>, k: nat)
    requires FromSources(cfg, sources, documents) && k < |documents|
    ensures Showable(cfg, sources[documents[k].index], documents[k].index, documents[..k])
  {
    var a, budget := documents[k], BudgetAfter(cfg, documents[..k]);
    assert AssembledWell(cfg, sources[a.index], a.index, budget, a);
    EmptyIffVanishes(cfg, a.header, WindowsOf(cfg, sources[a.index]), budget, Fitted(a.text, a.windows, a.truncated));
  }

  predicate Ascending(documents: seq<Assembled>) {
    forall j, k :: 0 <= j < k < |documents| ==> documents[j].index < documents[k].index
  }

  /** A source that could be shown behind the first `n` documents is shown, or one before it comes next. */
  lemma ShowableComesNext(cfg: AssemblyConfig, source: Document, i: nat, documents: seq<Assembled>, n: nat)
    requires Ascending(documents) && n <= |documents| && (forall j :: 0 <= j < n ==> documents[j].index < i)
    requires Shown(documents, i) || Missing(cfg, source, i, documents)
    requires Showable(cfg, source, i, documents[..n])
    ensures n < |documents| && documents[n].index <= i
  {
    if n == |documents| || i < documents[n].index {
      OnePlace(documents, i, n);
    }
  }

  lemma PlaceOf(documents: seq<Assembled>, k: nat, i: nat, j: nat)
    requires Between(documents, k, i) && j < |documents|
    ensures documents[j].index < i <==> j < k
  {
  }

  lemma OnePlace(documents: seq<Assembled>, i: nat, n: nat)
    requires Between(documents, n, i)
    ensures !Shown(documents, i) && forall k :: 0 <= k <= |documents| && Between(documents, k, i) ==> k == n
  {
    forall k | 0 <= k <= |documents| && Between(documents, k, i) ensures k == n {
      if k < |documents| {
        PlaceOf(documents, n, i, k);
      }
      if n < |documents| {
        PlaceOf(documents, k, i, n);
      }
    }
  }

  /** Of two assemblies that agree up to `n`, the one has a next document no later than the other. */
  lemma NextIsShown(cfg: AssemblyConfig, sources: seq<Document>, a: seq<Assembled>, b: seq<Assembled>, n: nat)
    requires FromSources(cfg, sources, a) && FromSources(cfg, sources, b) && Complete(cfg, sources, b)
    requires n < |a| && n <= |b| && a[..n] == b[..n]
    ensures n < |b| && b[n].index <= a[n].index
  {
    forall j | 0 <= j < n ensures b[j].index < a[n].index {
      assert b[j] == b[..n][j] == a[..n][j] == a[j];
    }
    ShownIsShowable(cfg, sources, a, n);
    ShowableComesNext(cfg, sources[a[n].index], a[n].index, b, n);
  }

  lemma SameSourceSameDocument(cfg: AssemblyConfig, sources: seq<Document>, a: seq<Assembled>, b: seq<Assembled>, n: nat)
    requires FromSources(cfg, sources, a) && FromSources(cfg, sources, b)
    requires n < |a| && n < |b| && a[..n] == b[..n] && a[n].index == b[n].index
    ensures a[n] == b[n]
  {
    var i := a[n].index;
    var budget := BudgetAfter(cfg, a[..n]);
    assert AssembledWell(cfg, sources[i], i, budget, a[n]) && AssembledWell(cfg, sources[i], i, budget, b[n]);
    FittedIsUnique(cfg, a[n].header, WindowsOf(cfg, sources[i]), budget,
                   Fitted(a[n].text, a[n].windows, a[n].truncated), Fitted(b[n].text, b[n].windows, b[n].truncated));
  }

  lemma {:induction false} DocumentsAreDetermined(cfg: AssemblyConfig, sources: seq<Document>, a: seq<Assembled>,
                                                  b: seq<Assembled>, n: nat)
    requires FromSources(cfg, sources, a) && Complete(cfg, sources, a)
    requires FromSources(cfg, sources, b) && Complete(cfg, sources, b)
    requires n <= |a| && n <= |b| && a[..n] == b[..n]
    ensures a == b
    decreases |a| - n
  {
    if n < |b| {
      NextIsShown(cfg, sources, b, a, n);
    }
    if n < |a| {
      NextIsShown(cfg, sources, a, b, n);
      SameSourceSameDocument(cfg, sources, a, b, n);
      assert a[..n + 1] == a[..n] + [a[n]] && b[..n + 1] == b[..n] + [b[n]];
      DocumentsAreDetermined(cfg, sources, a, b, n + 1);
    } else {
      assert a == a[..n] && b == b[..n];
    }
  }

  /**
   Whatever meets the contract of `assemble` is what `assemble` returns: no source can be
   dropped, swapped or cut otherwise.
   */
  lemma AssembleIsDetermined(cfg: AssemblyConfig, sources: seq<Document>, a: Assembly, b: Assembly)
    requires a.contextText == ContextText(cfg, a.documents) && b.contextText == ContextText(cfg, b.documents)
    requires FromSources(cfg, sources, a.documents) && Complete(cfg, sources, a.documents)
    requires FromSources(cfg, sources, b.documents) && Complete(cfg, sources, b.documents)
    ensures a == b
  {
    DocumentsAreDetermined(cfg, sources, a.documents, b.documents, 0);
  }
}
