/**
 * `SimplePDFViewer`: owns one `PDFPageView` per page of the document, the
 * current page number and the scale, and redraws its pages when the scale
 * changes.
 */
module Viewer {
  import opened Wrappers
  import opened TextLayer
  import opened PageView

  /** `currentScaleValue = 'page-width'` subtracts this from the container width. */
  const PAGE_WIDTH_PADDING: real := 40.0

  /** A loaded document: `numPages` is the length, `getPage(n)` yields `pages[n - 1]`. */
  datatype DocumentHandle = DocumentHandle(pages: seq<PageHandle>)

  /** What may be assigned to `currentScaleValue`: a number or a string. */
  datatype ScaleValue = NumberValue(scale: real) | NamedValue(name: string)

  /** A new page view attached to a fresh text layer div, given its page and reset. */
  ghost function PreparedPageModel(id: int, scale: real, rotation: int, hasFactory: bool, page: PageHandle): PageState {
    ResetModel(SetPdfPageModel(AttachModel(NewPageModel(id, scale, rotation, hasFactory), NEW_LAYER), page))
  }

  /** A page view as `_setupPages` and `_setupPageView` leave it: prepared, and drawn when current. */
  ghost function SetupPageModel(id: int, scale: real, rotation: int, hasFactory: bool, page: PageHandle,
                                drawIt: bool, flags: DisplayFlags): PageState
  {
    var p := PreparedPageModel(id, scale, rotation, hasFactory, page);
    if drawIt then DrawModel(p, flags).page else p
  }

  /** What `update()` does to one page view: `update(scale, rotation)` and then `draw()`. */
  ghost function RedrawModel(p: PageState, scale: real, rotation: int, flags: DisplayFlags): Drawn
    requires WellFormed(p) && Resettable(p)
  {
    UpdateLemmaHolds(p, scale, rotation);
    DrawModel(UpdateModel(p, scale, Some(rotation)), flags)
  }

  lemma UpdateLemmaHolds(p: PageState, scale: real, rotation: int)
    requires WellFormed(p) && Resettable(p)
    ensures WellFormed(UpdateModel(p, scale, Some(rotation)))
    ensures Resettable(UpdateModel(p, scale, Some(rotation)))
  {
    UpdateScale(p, scale, Some(rotation));
  }

  ghost predicate Redrawable(ps: seq<PageState>) {
    forall k :: 0 <= k < |ps| ==> WellFormed(ps[k]) && Resettable(ps[k])
  }

  /**
   * The pages after `update()`: the loop awaits each `draw()`, so it redraws the
   * pages in order up to and including the first whose draw throws (`failedAt`),
   * and leaves the pages after it as they were.
   */
  ghost predicate RedrawnFrom(before: seq<PageState>, after: seq<PageState>, scale: real, rotation: int,
                              flags: DisplayFlags, failedAt: Option<nat>)
    requires Redrawable(before)
  {
    && |after| == |before|
    && (failedAt.Some? ==> failedAt.value < |before| && !RedrawModel(before[failedAt.value], scale, rotation, flags).ok)
    && (forall k :: 0 <= k < |before| && (failedAt.None? || k < failedAt.value) ==>
          RedrawModel(before[k], scale, rotation, flags).ok)
    && (forall k :: 0 <= k < |before| ==>
          after[k] == if failedAt.None? || k <= failedAt.value then RedrawModel(before[k], scale, rotation, flags).page
                      else before[k])
  }

  /** The scale after an assignment to `currentScaleValue`, given the first page's viewport. */
  function ScaleAfter(current: real, v: ScaleValue, clientWidth: int, firstViewport: Option<Viewport>): real
    requires v.NamedValue? && v.name == "page-width" && firstViewport.Some? ==> firstViewport.value.width != 0.0
  {
    match v
    case NumberValue(s) => s
    case NamedValue(name) =>
      if name == "page-width" && firstViewport.Some?
      then (clientWidth as real - PAGE_WIDTH_PADDING) / firstViewport.value.width
      else current
  }

  /** A number is taken as it is; 'page-width' fits the first page's width into the padded container; any other name keeps the scale. */
  lemma ScaleAfterCases(current: real, v: ScaleValue, clientWidth: int, firstViewport: Option<Viewport>)
    requires v.NamedValue? && v.name == "page-width" && firstViewport.Some? ==> firstViewport.value.width != 0.0
    ensures v.NumberValue? ==> ScaleAfter(current, v, clientWidth, firstViewport) == v.scale
    ensures v.NamedValue? && v.name == "page-width" && firstViewport.Some? ==>
              ScaleAfter(current, v, clientWidth, firstViewport) * firstViewport.value.width
              == clientWidth as real - PAGE_WIDTH_PADDING
    ensures v.NamedValue? && (v.name != "page-width" || firstViewport.None?) ==>
              ScaleAfter(current, v, clientWidth, firstViewport) == current
  {
  }

  /** A page that is not the current one is prepared but not drawn: NOT_RENDERED, with an empty, sized, transparent text layer. */
  lemma SetupPageNotDrawn(id: int, scale: real, rotation: int, hasFactory: bool, page: PageHandle, flags: DisplayFlags)
    ensures var p := SetupPageModel(id, scale, rotation, hasFactory, page, false, flags);
            var vp := page.viewportAt(if scale == 0.0 then 1.0 else scale, TotalRotation(rotation, page.rotate));
            && WellFormed(p) && Resettable(p)
            && p.renderingState == NOT_RENDERED && p.textLayer.None?
            && p.viewport == Some(vp)
            && p.layer == Some(NEW_LAYER.(width := Some(vp.width), height := Some(vp.height)))
  {
  }

  /**
   * The current page is drawn once set up: it succeeds exactly when its canvas
   * renders and, with a factory, its text content arrives, and then its text
   * layer holds one span per visible item.
   */
  lemma SetupPageDrawn(id: int, scale: real, rotation: int, hasFactory: bool, page: PageHandle, flags: DisplayFlags)
    ensures var p := SetupPageModel(id, scale, rotation, hasFactory, page, true, flags);
            && WellFormed(p) && Resettable(p)
            && (p.renderingState == FINISHED <==> page.renders && (hasFactory ==> page.textContent.Some?))
            && (p.renderingState != FINISHED ==> p.renderingState == ERROR)
            && (p.renderingState == FINISHED && hasFactory ==>
                  |p.layer.value.children| == |VisibleItems(page.textContent.value.items)|)
  {
    var p0 := ResetModel(SetPdfPageModel(AttachModel(NewPageModel(id, scale, rotation, hasFactory), NEW_LAYER), page));
    DrawOkIff(p0, flags);
    DrawRenderingState(p0, flags);
    if DrawModel(p0, flags).ok && hasFactory {
      DrawnTextLayer(p0, flags);
    }
  }

  /** When every page is attached, renders and yields its text, `update()` redraws them all and none fails. */
  lemma RedrawAllSucceed(before: seq<PageState>, after: seq<PageState>, scale: real, rotation: int,
                         flags: DisplayFlags, failedAt: Option<nat>)
    requires Redrawable(before)
    requires RedrawnFrom(before, after, scale, rotation, flags, failedAt)
    requires forall k :: 0 <= k < |before| ==>
               && before[k].layer.Some? && before[k].pdfPage.Some? && before[k].pdfPage.value.renders
               && before[k].pdfPage.value.textContent.Some?
    ensures failedAt.None?
    ensures forall k :: 0 <= k < |after| ==> after[k].renderingState == FINISHED
  {
    if failedAt.Some? {
      var p := before[failedAt.value];
      UpdateLemmaHolds(p, scale, rotation);
      UpdateScale(p, scale, Some(rotation));
      ResetClears(p);
      DrawOkIff(UpdateModel(p, scale, Some(rotation)), flags);
    }
    forall k | 0 <= k < |after|
      ensures after[k].renderingState == FINISHED
    {
      var p := before[k];
      UpdateLemmaHolds(p, scale, rotation);
      UpdateScale(p, scale, Some(rotation));
      DrawOkIff(UpdateModel(p, scale, Some(rotation)), flags);
      DrawRenderingState(UpdateModel(p, scale, Some(rotation)), flags);
    }
  }

  /** Every page view is valid, prepared and inside `R`, and no two share an object. */
  ghost predicate PagesValid(ps: seq<PDFPageView>, R: set<object>)
    reads R
  {
    && (forall k :: 0 <= k < |ps| ==> ps[k] in R && ps[k].Repr <= R && ps[k].Valid() && ps[k].Prepared())
    && (forall i, j :: 0 <= i < j < |ps| ==> ps[i].Repr !! ps[j].Repr)
  }

  /** The page views are those `setDocument(doc)` creates, one per page in order. */
  ghost predicate SetUpFrom(ps: seq<PDFPageView>, R: set<object>, doc: DocumentHandle, scale: real, rotation: int,
                            hasFactory: bool, current: int, flags: DisplayFlags)
    reads R
    requires PagesValid(ps, R)
  {
    forall k :: 0 <= k < |ps| ==>
      k < |doc.pages| && ps[k].State() == SetupPageModel(k + 1, scale, rotation, hasFactory, doc.pages[k], k + 1 == current, flags)
  }

  /** The states of the page views, in order. */
  ghost function StatesOf(ps: seq<PDFPageView>, R: set<object>): (r: seq<PageState>)
    requires PagesValid(ps, R)
    reads R
    ensures |r| == |ps|
    ensures forall k :: 0 <= k < |ps| ==> r[k] == ps[k].State()
    ensures Redrawable(r)
  {
    seq(|ps|, k requires 0 <= k < |ps| && PagesValid(ps, R) reads R => ps[k].State())
  }

  lemma PagesValidAppend(ps: seq<PDFPageView>, R: set<object>, pv: PDFPageView)
    requires PagesValid(ps, R) && pv.Valid() && pv.Prepared() && pv.Repr !! R
    ensures PagesValid(ps + [pv], R + pv.Repr)
  {
    var ps' := ps + [pv];
    forall i, j | 0 <= i < j < |ps'|
      ensures ps'[i].Repr !! ps'[j].Repr
    {
      if j == |ps| {
        assert ps'[i] == ps[i] && ps[i].Repr <= R;
      }
    }
  }

  /** The page views, the footprint they own, and the one page view a step changes. */
  datatype PageStep = PageStep(pages: seq<PDFPageView>, footprint: set<object>, k: nat)

  /** A step that changes only the page view at `k` and grows its footprint by new objects keeps the others as they were. */
  twostate lemma PageStepFrame(step: PageStep)
    requires old(PagesValid(step.pages, step.footprint)) && step.k < |step.pages|
    requires var pv := step.pages[step.k];
             pv.Valid() && pv.Prepared() && old(pv.Repr) <= pv.Repr && fresh(pv.Repr - old(pv.Repr))
    requires forall o :: o in step.footprint && o !in old(step.pages[step.k].Repr) ==> unchanged(o)
    ensures PagesValid(step.pages, step.footprint + step.pages[step.k].Repr)
    ensures forall j :: 0 <= j < |step.pages| && j != step.k ==> step.pages[j].State() == old(step.pages[j].State())
  {
    var ps, k := step.pages, step.k;
    forall j | 0 <= j < |ps| && j != k
      ensures ps[j].Repr == old(ps[j].Repr) && ps[j].Valid() && ps[j].Prepared() && ps[j].State() == old(ps[j].State())
    {
      assert old(ps[j].Repr !! ps[k].Repr) by {
        if j < k { } else { }
      }
      assert unchanged(ps[j]);
      assert forall o :: o in old(ps[j].Repr) ==> unchanged(o);
    }
  }

  lemma SetUpFromAppend(ps: seq<PDFPageView>, R: set<object>, pv: PDFPageView, doc: DocumentHandle, scale: real,
                        rotation: int, hasFactory: bool, current: int, flags: DisplayFlags)
    requires PagesValid(ps, R) && pv.Valid() && pv.Prepared() && pv.Repr !! R
    requires SetUpFrom(ps, R, doc, scale, rotation, hasFactory, current, flags)
    requires |ps| < |doc.pages|
    requires pv.State() == SetupPageModel(|ps| + 1, scale, rotation, hasFactory, doc.pages[|ps|], |ps| + 1 == current, flags)
    ensures PagesValid(ps + [pv], R + pv.Repr)
    ensures SetUpFrom(ps + [pv], R + pv.Repr, doc, scale, rotation, hasFactory, current, flags)
  {
    PagesValidAppend(ps, R, pv);
    var ps' := ps + [pv];
    forall k | 0 <= k < |ps'|
      ensures k < |doc.pages| && ps'[k].State() == SetupPageModel(k + 1, scale, rotation, hasFactory, doc.pages[k], k + 1 == current, flags)
    {
      if k < |ps| {
        assert ps'[k] == ps[k];
      }
    }
  }

  /**
   * After `setDocument` exactly the page whose number is `current` has left
   * NOT_RENDERED: it is the only page drawn, and a `current` that names no page
   * leaves every page undrawn.
   */
  lemma SetUpDrawsOnlyCurrent(ps: seq<PDFPageView>, R: set<object>, doc: DocumentHandle, scale: real,
                              rotation: int, hasFactory: bool, current: int, flags: DisplayFlags)
    requires PagesValid(ps, R)
    requires SetUpFrom(ps, R, doc, scale, rotation, hasFactory, current, flags)
    ensures forall k :: 0 <= k < |ps| ==> (ps[k].State().renderingState != NOT_RENDERED <==> k + 1 == current)
  {
    forall k | 0 <= k < |ps|
      ensures ps[k].State().renderingState != NOT_RENDERED <==> k + 1 == current
    {
      assert ps[k] in R;
      assert k < |doc.pages|;
      if k + 1 == current {
        SetupPageDrawn(k + 1, scale, rotation, hasFactory, doc.pages[k], flags);
      } else {
        SetupPageNotDrawn(k + 1, scale, rotation, hasFactory, doc.pages[k], flags);
      }
    }
  }

  class SimplePDFViewer {
    var pdfDocument: Option<DocumentHandle>
    var pagesCount: int
    var currentPageNumber: int
    var currentScale: real
    var pagesRotation: int
    var pages: seq<PDFPageView>
    const textLayerFactory: TextLayerFactory?
    ghost var Repr: set<object>

    ghost predicate Valid()
      reads this, Repr
    {
      && this in Repr
      && pagesCount == |pages|
      && (pdfDocument.Some? ==> |pdfDocument.value.pages| == pagesCount)
      && PagesValid(pages, Repr - {this})
    }

    ghost function PageStates(): seq<PageState>
      requires Valid()
      reads this, Repr
    {
      StatesOf(pages, Repr - {this})
    }

    constructor(textLayerFactory: TextLayerFactory?)
      ensures Valid() && fresh(Repr)
      ensures this.textLayerFactory == textLayerFactory
      ensures pdfDocument.None? && pagesCount == 0 && pages == []
      ensures currentPageNumber == 1 && currentScale == 1.0 && pagesRotation == 0
    {
      pdfDocument := None;
      pagesCount := 0;
      currentPageNumber := 1;
      currentScale := 1.0;
      pagesRotation := 0;
      pages := [];
      this.textLayerFactory := textLayerFactory;
      Repr := {this};
    }

    /** The first half of `_setupPageView`: a new page view with its text layer div, its page, and a reset. */
    method PreparePageView(pageNum: int, page: PageHandle) returns (pv: PDFPageView)
      ensures fresh(pv.Repr) && pv.Valid() && pv.Prepared()
      ensures pv.State() == PreparedPageModel(pageNum, currentScale, pagesRotation, textLayerFactory != null, page)
    {
      pv := new PDFPageView(pageNum, currentScale, pagesRotation, textLayerFactory);
      var div := new LayerDiv();
      pv.Attach(div);
      pv.SetPdfPage(page);
      pv.Reset();
    }

    method SetupPageView(pageNum: int, page: PageHandle, flags: DisplayFlags) returns (pv: PDFPageView)
      ensures fresh(pv.Repr) && pv.Valid() && pv.Prepared()
      ensures pv.State() == SetupPageModel(pageNum, currentScale, pagesRotation, textLayerFactory != null,
                                           page, pageNum == currentPageNumber, flags)
    {
      pv := PreparePageView(pageNum, page);
      if pageNum == currentPageNumber {
        ghost var p := pv.State();
        var _ := pv.Draw(flags);
        DrawRenderingState(p, flags);
      }
    }

    /**
     * `_setupPages`: a new page view per page of `doc`, each set up by
     * `_setupPageView`; a page whose draw throws does not stop the others.
     */
    method SetupPages(doc: DocumentHandle, flags: DisplayFlags) returns (ps: seq<PDFPageView>, ghost R: set<object>)
      ensures fresh(R) && |ps| == |doc.pages| && PagesValid(ps, R)
      ensures SetUpFrom(ps, R, doc, currentScale, pagesRotation, textLayerFactory != null, currentPageNumber, flags)
    {
      ps, R := [], {};
      var pageNum := 1;
      while pageNum <= |doc.pages|
        invariant 1 <= pageNum <= |doc.pages| + 1 && |ps| == pageNum - 1
        invariant fresh(R) && PagesValid(ps, R)
        invariant SetUpFrom(ps, R, doc, currentScale, pagesRotation, textLayerFactory != null, currentPageNumber, flags)
      {
        var pv := SetupPageView(pageNum, doc.pages[pageNum - 1], flags);
        SetUpFromAppend(ps, R, pv, doc, currentScale, pagesRotation, textLayerFactory != null, currentPageNumber, flags);
        ps, R := ps + [pv], R + pv.Repr;
        pageNum := pageNum + 1;
      }
    }

    /** `setDocument`: replaces every page view by a new one per page of `doc`; only the page numbered `currentPageNumber` is drawn. */
    method SetDocument(doc: DocumentHandle, flags: DisplayFlags)
      requires Valid()
      modifies this
      ensures Valid() && fresh(Repr - {this})
      ensures pdfDocument == Some(doc) && pagesCount == |doc.pages| && |pages| == |doc.pages|
      ensures currentPageNumber == old(currentPageNumber) && currentScale == old(currentScale)
      ensures pagesRotation == old(pagesRotation)
      ensures SetUpFrom(pages, Repr - {this}, doc, currentScale, pagesRotation, textLayerFactory != null, currentPageNumber, flags)
    {
      pdfDocument := Some(doc);
      pagesCount := |doc.pages|;
      pages := [];
      var ps;
      ghost var R;
      ps, R := SetupPages(doc, flags);
      pages := ps;
      Repr := {this} + R;
      assert Repr - {this} == R;
    }

    /** The loop of `update()`: each page view in order gets the scale and rotation and is drawn, until a draw throws. */
    method RedrawPages(ghost R: set<object>, flags: DisplayFlags) returns (failedAt: Option<nat>, ghost R': set<object>)
      requires PagesValid(pages, R) && this !in R
      modifies R
      ensures R <= R' && fresh(R' - R) && PagesValid(pages, R')
      ensures RedrawnFrom(old(StatesOf(pages, R)), StatesOf(pages, R'), currentScale, pagesRotation, flags, failedAt)
    {
      ghost var before := StatesOf(pages, R);
      R' := R;
      var k := 0;
      while k < |pages|
        invariant 0 <= k <= |pages|
        invariant R <= R' && fresh(R' - R) && PagesValid(pages, R')
        invariant forall j :: 0 <= j < k ==>
                    RedrawModel(before[j], currentScale, pagesRotation, flags).ok
                    && pages[j].State() == RedrawModel(before[j], currentScale, pagesRotation, flags).page
        invariant forall j :: k <= j < |pages| ==> pages[j].State() == before[j]
      {
        var ok;
        ok, R' := RedrawPage(k, R', flags);
        if !ok {
          failedAt := Some(k);
          return;
        }
        k := k + 1;
      }
      failedAt := None;
    }

    /** One turn of `update()`'s loop: `update(scale, rotation)` and `draw()` on the page view at `k`. */
    method RedrawPage(k: nat, ghost R: set<object>, flags: DisplayFlags) returns (ok: bool, ghost R': set<object>)
      requires PagesValid(pages, R) && this !in R && k < |pages|
      modifies pages[k].Repr
      ensures R <= R' && fresh(R' - R) && PagesValid(pages, R')
      ensures Drawn(pages[k].State(), ok) == RedrawModel(old(pages[k].State()), currentScale, pagesRotation, flags)
      ensures forall j :: 0 <= j < |pages| && j != k ==> pages[j].State() == old(pages[j].State())
    {
      var pv := pages[k];
      ghost var p := pv.State();
      UpdateLemmaHolds(p, currentScale, pagesRotation);
      pv.Update(currentScale, Some(pagesRotation));
      ok := pv.Draw(flags);
      DrawRenderingState(UpdateModel(p, currentScale, Some(pagesRotation)), flags);
      PageStepFrame(PageStep(pages, R, k));
      R' := R + pv.Repr;
    }

    /** `update()`. */
    method Update(flags: DisplayFlags) returns (failedAt: Option<nat>)
      requires Valid()
      modifies Repr
      ensures Valid() && old(Repr) <= Repr && fresh(Repr - old(Repr))
      ensures pages == old(pages) && pdfDocument == old(pdfDocument) && pagesCount == old(pagesCount)
      ensures currentPageNumber == old(currentPageNumber) && currentScale == old(currentScale)
      ensures pagesRotation == old(pagesRotation)
      ensures RedrawnFrom(old(PageStates()), PageStates(), currentScale, pagesRotation, flags, failedAt)
    {
      ghost var R := Repr - {this};
      ghost var R';
      failedAt, R' := RedrawPages(R, flags);
      Repr := {this} + R';
      assert Repr - {this} == R';
    }

    /** Assigning `currentScaleValue`: sets the scale as `ScaleAfter` says, then runs `update()`. */
    method SetCurrentScaleValue(v: ScaleValue, clientWidth: int, flags: DisplayFlags) returns (failedAt: Option<nat>)
      requires Valid()
      requires v.NamedValue? && v.name == "page-width" && |pages| > 0 && pages[0].viewport.Some? ==>
                 pages[0].viewport.value.width != 0.0
      modifies Repr
      ensures Valid() && old(Repr) <= Repr && fresh(Repr - old(Repr))
      ensures pages == old(pages) && pdfDocument == old(pdfDocument) && pagesCount == old(pagesCount)
      ensures currentPageNumber == old(currentPageNumber) && pagesRotation == old(pagesRotation)
      ensures currentScale == ScaleAfter(old(currentScale), v, clientWidth,
                                         if |pages| > 0 then old(pages[0].viewport) else None)
      ensures RedrawnFrom(old(PageStates()), PageStates(), currentScale, pagesRotation, flags, failedAt)
    {
      ghost var before := PageStates();
      var scale := ScaleFor(v, clientWidth);
      currentScale := scale;
      assert forall k :: 0 <= k < |pages| ==> pages[k].State() == before[k];
      assert PageStates() == before;
      failedAt := Update(flags);
    }

    /** The scale the `currentScaleValue` setter picks for `v`. */
    method ScaleFor(v: ScaleValue, clientWidth: int) returns (scale: real)
      requires Valid()
      requires v.NamedValue? && v.name == "page-width" && |pages| > 0 && pages[0].viewport.Some? ==>
                 pages[0].viewport.value.width != 0.0
      ensures scale == ScaleAfter(currentScale, v, clientWidth, if |pages| > 0 then pages[0].viewport else None)
    {
      scale := currentScale;
      match v {
        case NumberValue(s) =>
          scale := s;
        case NamedValue(name) =>
          if name == "page-width" && |pages| > 0 && pages[0].viewport.Some? {
            scale := (clientWidth as real - PAGE_WIDTH_PADDING) / pages[0].viewport.value.width;
          }
      }
    }

    /** `recalculateTextLayer()`: one more `update()` at the current scale. */
    method RecalculateTextLayer(flags: DisplayFlags) returns (failedAt: Option<nat>)
      requires Valid()
      modifies Repr
      ensures Valid() && old(Repr) <= Repr && fresh(Repr - old(Repr))
      ensures pages == old(pages) && pdfDocument == old(pdfDocument) && pagesCount == old(pagesCount)
      ensures currentPageNumber == old(currentPageNumber) && currentScale == old(currentScale)
      ensures pagesRotation == old(pagesRotation)
      ensures RedrawnFrom(old(PageStates()), PageStates(), currentScale, pagesRotation, flags, failedAt)
    {
      failedAt := Update(flags);
    }
  }
}
