/**
 * `TextLayerBuilder` and `TextLayerFactory`: the transparent overlay of one
 * absolutely positioned span per non-blank text item. The overlay element is a
 * `LayerDiv`, shared by the page view that owns it and by every builder made for it.
 */
module TextLayer {
  import opened Wrappers
  import opened Chars

  /** What `pdfPage.getViewport` yields, reduced to what the overlay reads. */
  datatype Viewport = Viewport(width: real, height: real, scale: real, rotation: int)

  /** A text item's `transform`: `[a, b, c, d, e, f]`, with the origin at the bottom left. */
  datatype Transform = Transform(a: real, b: real, c: real, d: real, e: real, f: real)
  datatype TextItem = TextItem(str: string, transform: Transform, fontName: string)
  datatype TextStyle = TextStyle(fontFamily: string)
  /** What `pdfPage.getTextContent()` yields: the items and the styles by font name. */
  datatype TextContent = TextContent(items: seq<TextItem>, styles: map<string, TextStyle>)

  /** The process-wide `window.debugModeEnabled` and `window.enhancedSelectionEnabled`. */
  datatype DisplayFlags = DisplayFlags(debug: bool, enhancedSelection: bool)

  /** One overlay span: its text, its box, and the style properties the builder varies. */
  datatype Span = Span(
    text: string,
    left: real,
    top: real,
    fontSize: real,
    fontFamily: string,
    color: string,
    background: string,
    border: string,
    pointerEvents: string,
    minHeight: Option<real>)

  /** Where a span is and what it holds, leaving out the style properties. */
  datatype Placement = Placement(text: string, left: real, top: real, fontSize: real, fontFamily: string)

  function PlacementOf(s: Span): Placement {
    Placement(s.text, s.left, s.top, s.fontSize, s.fontFamily)
  }

  const DEFAULT_FONT_FAMILY: string := "sans-serif"
  const DEBUG_LAYER_OPACITY: string := "0.3"
  const DEBUG_LAYER_BACKGROUND: string := "rgba(0, 255, 0, 0.1)"
  const DEBUG_SPAN_BACKGROUND: string := "rgba(255, 0, 0, 0.2)"
  const DEBUG_SPAN_BORDER: string := "1px solid rgba(255, 0, 0, 0.5)"
  const DEBUG_SPAN_COLOR: string := "rgba(0, 0, 0, 0.8)"
  /** `parseFloat(span.style.fontSize) || 12`: a zero font size falls back to 12. */
  const FALLBACK_MIN_HEIGHT: real := 12.0

  function Abs(x: real): real { if x < 0.0 then -x else x }

  /** The span built for one item, before any enhancement, on a viewport of the given height. */
  function SpanFor(item: TextItem, styles: map<string, TextStyle>, viewportHeight: real): Span {
    var fontSize := Abs(item.transform.a);
    var y := viewportHeight - item.transform.f;
    Span(item.str, item.transform.e, y - fontSize, fontSize,
         if item.fontName in styles then styles[item.fontName].fontFamily else DEFAULT_FONT_FAMILY,
         "transparent", "", "", "all", None)
  }

  /** The geometry of a span: the bottom-left origin flipped to the top left. */
  lemma SpanGeometry(item: TextItem, styles: map<string, TextStyle>, viewportHeight: real)
    ensures SpanFor(item, styles, viewportHeight).text == item.str
    ensures SpanFor(item, styles, viewportHeight).fontSize >= 0.0
    ensures SpanFor(item, styles, viewportHeight).fontSize == item.transform.a || SpanFor(item, styles, viewportHeight).fontSize == -item.transform.a
    ensures SpanFor(item, styles, viewportHeight).left == item.transform.e
    ensures SpanFor(item, styles, viewportHeight).top
            == viewportHeight - item.transform.f - SpanFor(item, styles, viewportHeight).fontSize
    ensures item.fontName !in styles ==> SpanFor(item, styles, viewportHeight).fontFamily == DEFAULT_FONT_FAMILY
    ensures item.fontName in styles ==> SpanFor(item, styles, viewportHeight).fontFamily == styles[item.fontName].fontFamily
  {
  }

  /** The items that get a span: those whose string is non-empty and not all whitespace, in item order. */
  function VisibleItems(items: seq<TextItem>): seq<TextItem> {
    if items == [] then []
    else
      var last := items[|items| - 1];
      VisibleItems(items[..|items| - 1]) + (if NonBlank(last.str) then [last] else [])
  }

  /** The spans `render` appends, one at a time, in item order. */
  function BuildSpans(items: seq<TextItem>, styles: map<string, TextStyle>, viewportHeight: real): seq<Span> {
    if items == [] then []
    else
      var last := items[|items| - 1];
      BuildSpans(items[..|items| - 1], styles, viewportHeight)
        + (if NonBlank(last.str) then [SpanFor(last, styles, viewportHeight)] else [])
  }

  /** Filtering keeps the order: the visible items of a concatenation are the concatenation of the visible items. */
  lemma {:induction false} VisibleItemsAppend(a: seq<TextItem>, b: seq<TextItem>)
    ensures VisibleItems(a + b) == VisibleItems(a) + VisibleItems(b)
    decreases |b|
  {
    if b == [] {
      assert a + b == a;
    } else {
      var b' := b[..|b| - 1];
      assert (a + b)[..|a + b| - 1] == a + b';
      assert (a + b)[|a + b| - 1] == b[|b| - 1];
      VisibleItemsAppend(a, b');
    }
  }

  /** An item is visible exactly when it is one of the items and its string is not blank. */
  lemma {:induction false} VisibleItemsExact(items: seq<TextItem>, x: TextItem)
    ensures x in VisibleItems(items) <==> x in items && NonBlank(x.str)
  {
    if items != [] {
      var init := items[..|items| - 1];
      VisibleItemsExact(init, x);
      assert items == init + [items[|items| - 1]];
    }
  }

  /** One span per visible item, in the same order, each built from its item. */
  lemma {:induction false} BuildSpansMatchVisible(items: seq<TextItem>, styles: map<string, TextStyle>, viewportHeight: real)
    ensures |BuildSpans(items, styles, viewportHeight)| == |VisibleItems(items)|
    ensures forall k :: 0 <= k < |VisibleItems(items)| ==>
              BuildSpans(items, styles, viewportHeight)[k] == SpanFor(VisibleItems(items)[k], styles, viewportHeight)
  {
    if items != [] {
      BuildSpansMatchVisible(items[..|items| - 1], styles, viewportHeight);
    }
  }

  function DebugSpan(s: Span): Span {
    s.(background := DEBUG_SPAN_BACKGROUND, border := DEBUG_SPAN_BORDER, color := DEBUG_SPAN_COLOR)
  }

  function EnhancedSpan(s: Span): Span {
    s.(pointerEvents := "all", minHeight := Some(if s.fontSize == 0.0 then FALLBACK_MIN_HEIGHT else s.fontSize))
  }

  function DebugAll(spans: seq<Span>): (r: seq<Span>)
    ensures |r| == |spans|
    ensures forall k :: 0 <= k < |spans| ==> r[k] == DebugSpan(spans[k])
  {
    seq(|spans|, k requires 0 <= k < |spans| => DebugSpan(spans[k]))
  }

  function EnhanceAll(spans: seq<Span>): (r: seq<Span>)
    ensures |r| == |spans|
    ensures forall k :: 0 <= k < |spans| ==> r[k] == EnhancedSpan(spans[k])
  {
    seq(|spans|, k requires 0 <= k < |spans| => EnhancedSpan(spans[k]))
  }

  /** The observable state of the overlay element (`textLayerDiv`). */
  datatype LayerState = LayerState(
    children: seq<Span>,
    width: Option<real>,
    height: Option<real>,
    scaleFactor: Option<real>,
    opacity: string,
    background: string,
    pointerEvents: string,
    overflow: string)

  /** The element `_setupPageView` creates: transparent and not intercepting the pointer. */
  const NEW_LAYER: LayerState := LayerState([], None, None, None, "0", "", "none", "")

  /** `applyEnhancements`, with the two process-wide flags passed in. */
  function EnhancementsModel(l: LayerState, flags: DisplayFlags): LayerState {
    var l1 := if flags.debug
              then l.(opacity := DEBUG_LAYER_OPACITY, background := DEBUG_LAYER_BACKGROUND, children := DebugAll(l.children))
              else l.(opacity := "0");
    if flags.enhancedSelection
    then l1.(pointerEvents := "none", overflow := "visible", children := EnhanceAll(l1.children))
    else l1
  }

  /** The overlay after a rendering pass over `content` on `viewport`. */
  function RenderedLayer(l: LayerState, viewport: Viewport, content: TextContent, flags: DisplayFlags): LayerState {
    EnhancementsModel(
      l.(children := BuildSpans(content.items, content.styles, viewport.height),
         width := Some(viewport.width), height := Some(viewport.height), scaleFactor := Some(viewport.scale)),
      flags)
  }

  /** `cancel()` on the overlay: all children removed. */
  function CancelLayer(l: LayerState): LayerState {
    l.(children := [])
  }

  /**
   * A rendered overlay holds exactly one span per visible item, in item order,
   * placed by the item's transform alone, whatever the flags and whatever the
   * overlay held before.
   */
  lemma RenderedLayerSpans(l: LayerState, viewport: Viewport, content: TextContent, flags: DisplayFlags)
    ensures var r := RenderedLayer(l, viewport, content, flags);
            && |r.children| == |VisibleItems(content.items)|
            && forall k :: 0 <= k < |r.children| ==>
                 PlacementOf(r.children[k]) == PlacementOf(SpanFor(VisibleItems(content.items)[k], content.styles, viewport.height))
  {
    BuildSpansMatchVisible(content.items, content.styles, viewport.height);
  }

  /** What was in the overlay before a rendering pass does not matter: rebuilding never keeps old spans. */
  lemma RenderedLayerForgetsChildren(l: LayerState, old': seq<Span>, viewport: Viewport, content: TextContent, flags: DisplayFlags)
    ensures RenderedLayer(l.(children := old'), viewport, content, flags) == RenderedLayer(l, viewport, content, flags)
  {
  }

  /** After a cancel and a new rendering pass the overlay holds exactly the new content's span count. */
  lemma CancelThenRenderCount(l: LayerState, viewport: Viewport, content: TextContent, flags: DisplayFlags)
    ensures |RenderedLayer(CancelLayer(l), viewport, content, flags).children| == |VisibleItems(content.items)|
  {
    RenderedLayerSpans(CancelLayer(l), viewport, content, flags);
  }

  /** The observable state of a builder. */
  datatype BuilderState = BuilderState(pageIndex: int, viewport: Viewport, textContent: Option<TextContent>, renderingDone: bool)

  /** `render()` does its work only with text content set and no pass done yet. */
  predicate WillRender(b: BuilderState) {
    b.textContent.Some? && !b.renderingDone
  }

  /** The overlay element of a page (`textLayerDiv`), owned by the page view and written by its builders. */
  class LayerDiv {
    var children: seq<Span>
    var width: Option<real>
    var height: Option<real>
    var scaleFactor: Option<real>
    var opacity: string
    var background: string
    var pointerEvents: string
    var overflow: string

    ghost function State(): LayerState
      reads this
    {
      LayerState(children, width, height, scaleFactor, opacity, background, pointerEvents, overflow)
    }

    constructor()
      ensures State() == NEW_LAYER
    {
      children, width, height, scaleFactor := [], None, None, None;
      opacity, background, pointerEvents, overflow := "0", "", "none", "";
    }
  }

  class TextLayerBuilder {
    const textLayerDiv: LayerDiv
    const pageIndex: int
    const viewport: Viewport
    var textContent: Option<TextContent>
    var renderingDone: bool

    ghost function State(): BuilderState
      reads this
    {
      BuilderState(pageIndex, viewport, textContent, renderingDone)
    }

    constructor(textLayerDiv: LayerDiv, pageIndex: int, viewport: Viewport)
      ensures this.textLayerDiv == textLayerDiv
      ensures State() == BuilderState(pageIndex, viewport, None, false)
    {
      this.textLayerDiv := textLayerDiv;
      this.pageIndex := pageIndex;
      this.viewport := viewport;
      textContent := None;
      renderingDone := false;
    }

    method SetTextContent(content: TextContent)
      modifies this
      ensures State() == old(State()).(textContent := Some(content))
    {
      textContent := Some(content);
    }

    /**
     * Without text content, or once a pass is done, nothing happens. Otherwise the
     * overlay is emptied, sized to the viewport, filled with one span per visible
     * item, enhanced by the flags, and the pass is marked done.
     */
    method Render(flags: DisplayFlags)
      modifies this, textLayerDiv
      ensures old(WillRender(State())) ==>
                && State() == old(State()).(renderingDone := true)
                && textLayerDiv.State() == RenderedLayer(old(textLayerDiv.State()), viewport, old(textContent).value, flags)
      ensures !old(WillRender(State())) ==>
                State() == old(State()) && textLayerDiv.State() == old(textLayerDiv.State())
    {
      if textContent.None? || renderingDone {
        return;
      }
      var content := textContent.value;
      textLayerDiv.children := [];
      textLayerDiv.width := Some(viewport.width);
      textLayerDiv.height := Some(viewport.height);
      textLayerDiv.scaleFactor := Some(viewport.scale);
      ghost var base := textLayerDiv.State();
      var items := content.items;
      var i := 0;
      while i < |items|
        invariant 0 <= i <= |items|
        invariant textLayerDiv.State() == base.(children := BuildSpans(items[..i], content.styles, viewport.height))
        invariant State() == old(State())
      {
        assert items[..i + 1][..i] == items[..i];
        if NonBlank(items[i].str) {
          textLayerDiv.children := textLayerDiv.children + [SpanFor(items[i], content.styles, viewport.height)];
        }
        i := i + 1;
      }
      assert items[..|items|] == items;
      ApplyEnhancements(flags);
      renderingDone := true;
    }

    /** Debug mode tints the layer and shows every span; enhanced selection makes every span a hit target. */
    method ApplyEnhancements(flags: DisplayFlags)
      modifies textLayerDiv
      ensures textLayerDiv.State() == EnhancementsModel(old(textLayerDiv.State()), flags)
    {
      if flags.debug {
        textLayerDiv.opacity := DEBUG_LAYER_OPACITY;
        textLayerDiv.background := DEBUG_LAYER_BACKGROUND;
        RestyleSpans(false);
      } else {
        textLayerDiv.opacity := "0";
      }
      if flags.enhancedSelection {
        textLayerDiv.pointerEvents := "none";
        textLayerDiv.overflow := "visible";
        RestyleSpans(true);
      }
    }

    /** `querySelectorAll('span').forEach(...)`: restyles every span of the overlay in place. */
    method RestyleSpans(enhanced: bool)
      modifies textLayerDiv
      ensures textLayerDiv.State() == old(textLayerDiv.State()).(children :=
                if enhanced then EnhanceAll(old(textLayerDiv.children)) else DebugAll(old(textLayerDiv.children)))
    {
      ghost var spans := textLayerDiv.children;
      ghost var rest := textLayerDiv.State().(children := []);
      var k := 0;
      while k < |textLayerDiv.children|
        invariant 0 <= k <= |spans| == |textLayerDiv.children|
        invariant textLayerDiv.State().(children := []) == rest
        invariant forall j :: 0 <= j < k ==>
                    textLayerDiv.children[j] == if enhanced then EnhancedSpan(spans[j]) else DebugSpan(spans[j])
        invariant forall j :: k <= j < |spans| ==> textLayerDiv.children[j] == spans[j]
      {
        var span := textLayerDiv.children[k];
        textLayerDiv.children := textLayerDiv.children[k := if enhanced then EnhancedSpan(span) else DebugSpan(span)];
        k := k + 1;
      }
      assert textLayerDiv.children == if enhanced then EnhanceAll(spans) else DebugAll(spans);
    }

    /** Always clears the done mark and empties the overlay, so cancelling twice equals cancelling once. */
    method Cancel()
      modifies this, textLayerDiv
      ensures State() == old(State()).(renderingDone := false)
      ensures textLayerDiv.State() == CancelLayer(old(textLayerDiv.State()))
    {
      renderingDone := false;
      textLayerDiv.children := [];
    }
  }

  class TextLayerFactory {
    constructor()
    {
    }

    method CreateTextLayerBuilder(textLayerDiv: LayerDiv, pageIndex: int, viewport: Viewport) returns (b: TextLayerBuilder)
      ensures fresh(b)
      ensures b.textLayerDiv == textLayerDiv
      ensures b.State() == BuilderState(pageIndex, viewport, None, false)
    {
      b := new TextLayerBuilder(textLayerDiv, pageIndex, viewport);
    }
  }
}
