/**
 * `PDFPageView`: one page of the document, with its page box, canvas and text
 * layer. The page handle the PDF library gives back is a value here; whether
 * its canvas rendering and its text extraction succeed is part of that value.
 */
module PageView {
  import opened Wrappers
  import opened TextLayer

  /** The values of `renderingState`. */
  const NOT_RENDERED: int := 0
  const RUNNING: int := 1
  const ERROR: int := 2
  const FINISHED: int := 3

  /** JavaScript's `a % 360`: the remainder takes the sign of the dividend. */
  function RemainderBy360(a: int): (r: int)
    ensures -360 < r < 360
    ensures a >= 0 ==> r >= 0
    ensures a <= 0 ==> r <= 0
    ensures (a - r) % 360 == 0
  {
    if a >= 0 then a % 360 else -((-a) % 360)
  }

  /** `Math.floor`. */
  function Floor(x: real): (r: int)
    ensures r as real <= x < r as real + 1.0
  {
    x.Floor
  }

  /**
   * A page handle: its own `/Rotate`, `getViewport({scale, rotation})`, whether
   * `render(...).promise` resolves, and what `getTextContent()` resolves to
   * (`None` when it rejects).
   */
  datatype PageHandle = PageHandle(
    rotate: int,
    viewportAt: (real, int) -> Viewport,
    renders: bool,
    textContent: Option<TextContent>)

  /** The page box's style size in whole pixels. */
  datatype PixelBox = PixelBox(width: int, height: int)
  /** The canvas size. */
  datatype Extent = Extent(width: real, height: real)

  /**
   * The observable state of a page view. `layer` is the state of the attached
   * text layer element (`None` before `_setupPageView` attaches the page box,
   * canvas and text layer element, which it always does together).
   */
  datatype PageState = PageState(
    id: int,
    scale: real,
    rotation: int,
    viewport: Option<Viewport>,
    pdfPage: Option<PageHandle>,
    pdfPageRotate: int,
    divBox: Option<PixelBox>,
    canvasBox: Option<Extent>,
    layer: Option<LayerState>,
    textLayer: Option<BuilderState>,
    renderingState: int,
    hasFactory: bool)

  ghost predicate WellFormed(p: PageState) {
    && (p.pdfPage.Some? ==> p.viewport.Some?)
    && (p.textLayer.Some? ==> p.layer.Some?)
    && NOT_RENDERED <= p.renderingState <= FINISHED
  }

  /** `reset()` reads the viewport as soon as the page box is attached. */
  ghost predicate Resettable(p: PageState) {
    p.layer.Some? ==> p.viewport.Some?
  }

  /** The value of the total rotation passed to `getViewport`. */
  function TotalRotation(rotation: int, pageRotate: int): int {
    RemainderBy360(rotation + pageRotate)
  }

  ghost function NewPageModel(id: int, scale: real, rotation: int, hasFactory: bool): PageState {
    PageState(id, if scale == 0.0 then 1.0 else scale, rotation, None, None, 0,
              None, None, None, None, NOT_RENDERED, hasFactory)
  }

  ghost function AttachModel(p: PageState, layer: LayerState): PageState {
    p.(layer := Some(layer))
  }

  ghost function SetPdfPageModel(p: PageState, page: PageHandle): PageState {
    p.(pdfPage := Some(page), pdfPageRotate := page.rotate,
       viewport := Some(page.viewportAt(p.scale, TotalRotation(p.rotation, page.rotate))))
  }

  ghost function ResetModel(p: PageState): PageState
    requires Resettable(p)
  {
    var p1 := p.(renderingState := NOT_RENDERED, textLayer := None);
    if p.layer.None? then p1
    else
      var vp := p.viewport.value;
      p1.(divBox := Some(PixelBox(Floor(vp.width), Floor(vp.height))),
          canvasBox := Some(Extent(vp.width, vp.height)),
          layer := Some(p.layer.value.(children := [], width := Some(vp.width), height := Some(vp.height))))
  }

  /** `update(scale, rotation)`: a zero scale keeps the old one, a missing rotation keeps the old one. */
  ghost function UpdateModel(p: PageState, scale: real, rotation: Option<int>): PageState
    requires WellFormed(p) && Resettable(p)
  {
    var p1 := p.(scale := if scale == 0.0 then p.scale else scale,
                 rotation := if rotation.Some? then rotation.value else p.rotation);
    var p2 := if p.pdfPage.None? then p1
              else p1.(viewport := Some(p.pdfPage.value.viewportAt(p1.scale, TotalRotation(p1.rotation, p.pdfPageRotate))));
    ResetModel(p2)
  }

  datatype Drawn = Drawn(page: PageState, ok: bool)

  /**
   * `draw()`. Without a canvas it throws before its `try` and stays RUNNING; a
   * failed canvas rendering or text extraction sets ERROR and throws; otherwise
   * it sets FINISHED and, with a factory, replaces the text layer with a new one
   * built over the same element and rendered.
   */
  ghost function DrawModel(p: PageState, flags: DisplayFlags): Drawn
    requires WellFormed(p)
  {
    var p1 := p.(renderingState := RUNNING);
    if p.layer.None? then Drawn(p1, false)
    else if p.pdfPage.None? || !p.pdfPage.value.renders then Drawn(p1.(renderingState := ERROR), false)
    else if !p.hasFactory then Drawn(p1.(renderingState := FINISHED), true)
    else if p.pdfPage.value.textContent.None? then Drawn(p1.(renderingState := ERROR), false)
    else
      var content := p.pdfPage.value.textContent.value;
      var vp := p.viewport.value;
      var l := if p.textLayer.Some? then CancelLayer(p.layer.value) else p.layer.value;
      Drawn(p1.(renderingState := FINISHED,
                textLayer := Some(BuilderState(p.id - 1, vp, Some(content), true)),
                layer := Some(RenderedLayer(l, vp, content, flags))),
            true)
  }

  /** The page gets the option values, with `scale || 1`, and starts NOT_RENDERED with nothing attached. */
  lemma NewPageDefaults(id: int, scale: real, rotation: int, hasFactory: bool)
    ensures var p := NewPageModel(id, scale, rotation, hasFactory);
            && WellFormed(p) && Resettable(p)
            && p.scale == (if scale == 0.0 then 1.0 else scale) && p.scale != 0.0
            && p.renderingState == NOT_RENDERED && p.layer.None? && p.textLayer.None?
  {
  }

  /** The viewport follows the page view's own scale, and a rotation in (-360, 360). */
  lemma SetPdfPageViewport(p: PageState, page: PageHandle)
    ensures var q := SetPdfPageModel(p, page);
            && q.viewport == Some(page.viewportAt(p.scale, TotalRotation(p.rotation, page.rotate)))
            && -360 < TotalRotation(p.rotation, page.rotate) < 360
            && (WellFormed(p) ==> WellFormed(q))
            && Resettable(q)
  {
  }

  /** Rotations that add up to a non-negative value reduce as ordinary modular arithmetic. */
  lemma TotalRotationNonNegative(rotation: int, pageRotate: int)
    requires rotation + pageRotate >= 0
    ensures TotalRotation(rotation, pageRotate) == (rotation + pageRotate) % 360
  {
  }

  /** A negative total rotation stays negative: JavaScript's `%` is not the Euclidean one. */
  lemma TotalRotationNegative()
    ensures TotalRotation(0, -90) == -90
  {
  }

  /**
   * After `reset()` the page is NOT_RENDERED with no text layer builder, and an
   * attached page has an empty text layer element sized to the viewport, a page
   * box of the floored viewport size and a canvas of the viewport size.
   */
  lemma ResetClears(p: PageState)
    requires WellFormed(p) && Resettable(p)
    ensures var q := ResetModel(p);
            && WellFormed(q) && Resettable(q)
            && q.renderingState == NOT_RENDERED && q.textLayer.None?
            && q.layer.Some? == p.layer.Some?
            && (q.layer.Some? ==>
                  && q.layer.value.children == []
                  && q.layer.value.width == Some(p.viewport.value.width)
                  && q.layer.value.height == Some(p.viewport.value.height)
                  && q.divBox.value.width as real <= p.viewport.value.width < q.divBox.value.width as real + 1.0
                  && q.divBox.value.height as real <= p.viewport.value.height < q.divBox.value.height as real + 1.0
                  && q.canvasBox == Some(Extent(p.viewport.value.width, p.viewport.value.height)))
            && q.viewport == p.viewport && q.scale == p.scale && q.pdfPage == p.pdfPage
  {
  }

  /** Resetting twice is resetting once. */
  lemma ResetIdempotent(p: PageState)
    requires Resettable(p)
    ensures Resettable(ResetModel(p))
    ensures ResetModel(ResetModel(p)) == ResetModel(p)
  {
  }

  /** `scale || this.scale`: a zero scale leaves the page's scale as it was. */
  lemma UpdateScale(p: PageState, scale: real, rotation: Option<int>)
    requires WellFormed(p) && Resettable(p)
    ensures var q := UpdateModel(p, scale, rotation);
            && WellFormed(q) && Resettable(q)
            && q.scale == (if scale == 0.0 then p.scale else scale)
            && q.rotation == (if rotation.Some? then rotation.value else p.rotation)
            && (p.pdfPage.Some? ==>
                  q.viewport == Some(p.pdfPage.value.viewportAt(q.scale, TotalRotation(q.rotation, p.pdfPageRotate))))
            && q.renderingState == NOT_RENDERED
  {
  }

  /** When `draw()` succeeds, exactly. */
  lemma DrawOkIff(p: PageState, flags: DisplayFlags)
    requires WellFormed(p)
    ensures DrawModel(p, flags).ok <==>
              && p.layer.Some? && p.pdfPage.Some? && p.pdfPage.value.renders
              && (p.hasFactory ==> p.pdfPage.value.textContent.Some?)
  {
  }

  /** A successful draw ends FINISHED, a failed one ERROR, except without a canvas, where it stays RUNNING. */
  lemma DrawRenderingState(p: PageState, flags: DisplayFlags)
    requires WellFormed(p)
    ensures var d := DrawModel(p, flags);
            && WellFormed(d.page)
            && (d.ok ==> d.page.renderingState == FINISHED)
            && (!d.ok && p.layer.Some? ==> d.page.renderingState == ERROR)
            && (p.layer.None? ==> d.page.renderingState == RUNNING)
            && d.page.viewport == p.viewport && d.page.scale == p.scale
            && d.page.layer.Some? == p.layer.Some?
            && (Resettable(p) ==> Resettable(d.page))
  {
  }

  /**
   * A successful draw with a factory leaves one span per visible text item, in item
   * order, placed by the viewport the page was drawn at; the builder is marked done
   * and indexed by `id - 1`.
   */
  lemma DrawnTextLayer(p: PageState, flags: DisplayFlags)
    requires WellFormed(p)
    requires DrawModel(p, flags).ok && p.hasFactory
    ensures var d := DrawModel(p, flags).page;
            var content := p.pdfPage.value.textContent.value;
            var items := VisibleItems(content.items);
            && d.textLayer == Some(BuilderState(p.id - 1, p.viewport.value, Some(content), true))
            && |d.layer.value.children| == |items|
            && forall k :: 0 <= k < |items| ==>
                 PlacementOf(d.layer.value.children[k]) == PlacementOf(SpanFor(items[k], content.styles, p.viewport.value.height))
  {
    var content := p.pdfPage.value.textContent.value;
    var l := if p.textLayer.Some? then CancelLayer(p.layer.value) else p.layer.value;
    RenderedLayerSpans(l, p.viewport.value, content, flags);
  }

  lemma EnhancementsIdempotent(l: LayerState, flags: DisplayFlags)
    ensures EnhancementsModel(l.(children := []), flags).(children := [])
            == EnhancementsModel(EnhancementsModel(l, flags).(children := []), flags).(children := [])
  {
  }

  /** Drawing again with the same flags changes nothing: spans are replaced, never accumulated. */
  lemma {:induction false} DrawIdempotent(p: PageState, flags: DisplayFlags)
    requires WellFormed(p)
    ensures WellFormed(DrawModel(p, flags).page)
    ensures DrawModel(DrawModel(p, flags).page, flags) == DrawModel(p, flags)
  {
    DrawRenderingState(p, flags);
    var d := DrawModel(p, flags);
    if d.ok && p.hasFactory {
      var content := p.pdfPage.value.textContent.value;
      var vp := p.viewport.value;
      var l := if p.textLayer.Some? then CancelLayer(p.layer.value) else p.layer.value;
      var r1 := RenderedLayer(l, vp, content, flags);
      var r2 := RenderedLayer(CancelLayer(r1), vp, content, flags);
      var sized := l.(children := [], width := Some(vp.width), height := Some(vp.height), scaleFactor := Some(vp.scale));
      EnhancementsIdempotent(sized, flags);
      assert r2 == r1;
    }
  }

  class PDFPageView {
    const id: int
    var scale: real
    var rotation: int
    var viewport: Option<Viewport>
    var pdfPage: Option<PageHandle>
    var pdfPageRotate: int
    var divBox: Option<PixelBox>
    var canvasBox: Option<Extent>
    var textLayerDiv: LayerDiv?
    var textLayer: TextLayerBuilder?
    var renderingState: int
    const textLayerFactory: TextLayerFactory?
    ghost var Repr: set<object>

    ghost predicate Valid()
      reads this, Repr
    {
      && this in Repr
      && (textLayerDiv != null ==> textLayerDiv in Repr)
      && (textLayer != null ==> textLayer in Repr && textLayerDiv != null && textLayer.textLayerDiv == textLayerDiv)
      && (pdfPage.Some? ==> viewport.Some?)
      && NOT_RENDERED <= renderingState <= FINISHED
    }

    /** `reset()` can run: an attached page view has a viewport. */
    ghost predicate Prepared()
      reads this
    {
      textLayerDiv != null ==> viewport.Some?
    }

    ghost function State(): PageState
      reads this, textLayerDiv, textLayer
    {
      PageState(id, scale, rotation, viewport, pdfPage, pdfPageRotate, divBox, canvasBox,
                if textLayerDiv == null then None else Some(textLayerDiv.State()),
                if textLayer == null then None else Some(textLayer.State()),
                renderingState, textLayerFactory != null)
    }

    constructor(id: int, scale: real, rotation: int, textLayerFactory: TextLayerFactory?)
      ensures Valid() && Repr == {this}
      ensures this.textLayerFactory == textLayerFactory
      ensures State() == NewPageModel(id, scale, rotation, textLayerFactory != null)
    {
      this.id := id;
      this.scale := if scale == 0.0 then 1.0 else scale;
      this.rotation := rotation;
      viewport, pdfPage, pdfPageRotate := None, None, 0;
      divBox, canvasBox := None, None;
      textLayerDiv, textLayer := null, null;
      renderingState := NOT_RENDERED;
      this.textLayerFactory := textLayerFactory;
      Repr := {this};
    }

    /** `_setupPageView` assigns the page box, canvas and text layer element. */
    method Attach(div: LayerDiv)
      requires Valid() && textLayer == null && div !in Repr
      modifies this
      ensures Valid() && Repr == old(Repr) + {div}
      ensures State() == AttachModel(old(State()), div.State())
    {
      textLayerDiv := div;
      Repr := Repr + {div};
    }

    method SetPdfPage(page: PageHandle)
      requires Valid()
      modifies this
      ensures Valid() && Repr == old(Repr)
      ensures State() == SetPdfPageModel(old(State()), page)
    {
      pdfPage := Some(page);
      pdfPageRotate := page.rotate;
      viewport := Some(page.viewportAt(scale, TotalRotation(rotation, pdfPageRotate)));
    }

    method Reset()
      requires Valid() && Prepared()
      modifies Repr
      ensures Valid() && Repr == old(Repr)
      ensures State() == ResetModel(old(State()))
    {
      renderingState := NOT_RENDERED;
      if textLayerDiv != null {
        var vp := viewport.value;
        divBox := Some(PixelBox(Floor(vp.width), Floor(vp.height)));
        canvasBox := Some(Extent(vp.width, vp.height));
      }
      if textLayer != null {
        textLayer.Cancel();
        textLayer := null;
      }
      if textLayerDiv != null {
        textLayerDiv.children := [];
        textLayerDiv.width := Some(viewport.value.width);
        textLayerDiv.height := Some(viewport.value.height);
      }
    }

    method Update(scale: real, rotation: Option<int>)
      requires Valid() && Prepared()
      modifies Repr
      ensures Valid() && Repr == old(Repr)
      ensures State() == UpdateModel(old(State()), scale, rotation)
    {
      this.scale := if scale == 0.0 then this.scale else scale;
      this.rotation := if rotation.Some? then rotation.value else this.rotation;
      if pdfPage.Some? {
        viewport := Some(pdfPage.value.viewportAt(this.scale, TotalRotation(this.rotation, pdfPageRotate)));
      }
      Reset();
    }

    /** `draw()`; `ok` is false exactly when it throws. */
    method Draw(flags: DisplayFlags) returns (ok: bool)
      requires Valid()
      modifies Repr
      ensures Valid() && old(Repr) <= Repr && fresh(Repr - old(Repr))
      ensures Drawn(State(), ok) == DrawModel(old(State()), flags)
    {
      renderingState := RUNNING;
      if textLayerDiv == null {
        return false;
      }
      if pdfPage.None? || !pdfPage.value.renders {
        renderingState := ERROR;
        return false;
      }
      renderingState := FINISHED;
      if textLayerFactory != null {
        if pdfPage.value.textContent.None? {
          renderingState := ERROR;
          return false;
        }
        ReplaceTextLayer(pdfPage.value.textContent.value, flags);
      }
      ok := true;
    }

    /** The `try` block's tail: cancels the old builder and renders a new one over the same element. */
    method ReplaceTextLayer(content: TextContent, flags: DisplayFlags)
      requires Valid() && textLayerDiv != null && viewport.Some? && textLayerFactory != null
      modifies Repr
      ensures Valid() && old(Repr) <= Repr && fresh(Repr - old(Repr))
      ensures State() == old(State()).(
                textLayer := Some(BuilderState(id - 1, old(viewport).value, Some(content), true)),
                layer := Some(RenderedLayer(if old(textLayer) != null then CancelLayer(old(textLayerDiv.State()))
                                            else old(textLayerDiv.State()), old(viewport).value, content, flags)))
    {
      if textLayer != null {
        textLayer.Cancel();
      }
      var b := textLayerFactory.CreateTextLayerBuilder(textLayerDiv, id - 1, viewport.value);
      b.SetTextContent(content);
      b.Render(flags);
      textLayer := b;
      Repr := Repr + {b};
    }
  }
}
