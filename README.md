# pdfjsMarkText, modelled in Dafny

pdfjsMarkText is a small browser PDF viewer. It puts a transparent text overlay over each
rendered page, so that the user can select text and keep the selections as "marked texts".
This project models its core and proves properties of that model:

- the application class `PDFViewerApp` (`src/main.ts`, compiled to `dist/main.js`): the
  selection gate and its validator, the marked-text list, page navigation with its toolbar
  state, and the zoom arithmetic;
- the viewer components in `public/viewer.js`: the `EventBus`, the page view `PDFPageView` with
  its rendering state machine, the `SimplePDFViewer` that owns one page view per page, and the
  `TextLayerBuilder`/`TextLayerFactory` that build the overlay.

Modules follow the program's structure:

| module | file | models |
|---|---|---|
| `Wrappers` | `wrappers.dfy` | `Option` |
| `Chars` | `chars.dfy` | `\w`, the ECMAScript whitespace set, `String.prototype.trim` |
| `Selection` | `selection.dfy` | `validateTextSelection` and the gate in `handleTextSelection` |
| `Zoom` | `zoom.dfy` | the scale arithmetic of `zoomIn`, `zoomOut`, `fitToWidth`, `fitToPage` |
| `Events` | `event_bus.dfy` | `EventBus` |
| `TextLayer` | `text_layer.dfy` | `TextLayerBuilder`, `TextLayerFactory` and the overlay element |
| `PageView` | `page_view.dfy` | `PDFPageView` |
| `Viewer` | `pdf_viewer.dfy` | `SimplePDFViewer` |
| `App` | `app.dfy` | `PDFViewerApp` |

Code that updates objects in place is modelled by classes with the source's fields. Each
method's `ensures` ties the new observable state (`State()`, a datatype snapshot) to a pure
transition function of the old one (`ResetModel`, `DrawModel`, `GoToModel`, …). The other
properties are lemmas about those transition functions. The pure code (the validator, the
gate, the scale arithmetic, the span geometry) is modelled by functions.

The values that the browser or pdf.js supplies arrive as parameters:
- the selection's text, whether it is collapsed, whether it lies inside a `.textLayer` and
  whether its two ends are in different containers;
- the results of `parseInt`/`parseFloat` (`None` for `NaN`);
- the container's `clientWidth`/`clientHeight`;
- the id (`Date.now()`) and timestamp of a new marked text;
- the two display flags `window.debugModeEnabled` and `window.enhancedSelectionEnabled`.

A pdf.js page is a `PageHandle` value: its `/Rotate`, a `getViewport` function, whether its
canvas rendering succeeds, and its text content (`None` when `getTextContent` rejects).
`await`s run to completion, one after the other.

`dist/main.js` is the compiled form of `src/main.ts` with the same logic. The table below cites
`src/main.ts`. The same methods sit in `dist/main.js` as follows:

| method | src/main.ts | dist/main.js |
|---|---|---|
| constructor | 46-51 | 7-19 |
| handlePageInput | 136-144 | 87-96 |
| handleZoomSelect | 146-159 | 97-111 |
| fitToWidth | 161-170 | 112-120 |
| fitToPage | 172-186 | 121-133 |
| setZoom | 188-194 | 134-140 |
| loadPDF | 253-276 | 191-212 |
| handleTextSelection | 278-325 | 213-257 |
| validateTextSelection | 327-357 | 258-283 |
| addMarkedText | 359-372 | 284-295 |
| copyText | 393-402 | 313-322 |
| clearMarkedTexts | 404-408 | 323-327 |
| previousPage | 410-415 | 328-333 |
| nextPage | 417-422 | 334-339 |
| goToPage | 424-430 | 340-346 |
| zoomIn | 432-436 | 347-351 |
| zoomOut | 438-442 | 352-356 |
| updateUI | 461-477 | 372-387 |
| recalculateTextLayer | 611-621 | 504-514 |

The code behaves as follows where a reader might expect otherwise:
- A one-character selection of a word character such as `"a"` is accepted at every zoom,
  because `/\w+/` matches it (`Selection.SingleWordCharAccepted`).
- The high-zoom branch and the stripped-whitespace branch of the validator never decide
  anything on their own (`Selection.ValidateCharacterization`).
- `SimplePDFViewer.update()` awaits each `draw()` in page order, so the first page whose draw
  throws stops the redraw, and later pages keep their old state (`Viewer.RedrawnFrom`).
- `goToPage` only sets the viewer's page number and draws nothing.
- The enhanced-selection styling in `applyEnhancements` sets the overlay's `pointerEvents`
  to `none` and its `overflow` to `visible`, and changes each span's `pointerEvents` and
  `minHeight` only. No padding is added.
- JavaScript's `length` counts UTF-16 code units, so a character outside the Basic
  Multilingual Plane counts twice (`Chars.Utf16Length`): a single such character is accepted
  by the validator (`Selection.SingleAstralAccepted`), and 1000 of them are already too large
  to mark (`Selection.AstralSelectionTooLarge`).

## Model

| member | source | states |
|---|---|---|
| `Chars.Trim` | src/main.ts:287 | the result is a contiguous slice of the input; everything before and after it is ECMAScript whitespace; its first and last characters are not whitespace |
| `Chars.TrimProperties` | src/main.ts:287 | trimming gives a non-empty string exactly when the input has a non-whitespace character, and trimming twice equals trimming once |
| `Chars.IsJsWhitespace` | src/main.ts:287 | the ECMAScript whitespace and line-terminator set that `trim` and `\s` remove (definition) |
| `Chars.IsWordChar` | src/main.ts:339 | the class `\w`: ASCII letters, digits and `_` (definition) |
| `Chars.NonBlank` | public/viewer.js:316 | a string with a character that is not whitespace, the test `str.trim()` makes (definition) |
| `Chars.Utf16Length` | src/main.ts:290 | JavaScript's `length`, in UTF-16 code units: between the number of characters and twice it, and zero only for the empty string |
| `Chars.Utf16LengthAppend` | src/main.ts:290 | the UTF-16 length of a concatenation is the sum of the lengths |
| `Chars.Utf16LengthAstral` | src/main.ts:290 | a string of characters above U+FFFF has twice as many code units as characters |
| `Selection.StripWhitespace` | src/main.ts:344 | `text.replace(/\s+/g, '')`: the text with every whitespace character removed (definition) |
| `Selection.HasWordChar` | src/main.ts:339 | `/\w+/.test(text)`: some character is a word character (definition) |
| `Selection.HasWordRun3` | src/main.ts:334 | `/\w{3,}/.test(text)`: three word characters in a row (definition) |
| `Selection.ValidateTextSelection` | src/main.ts:327-357 | the validator's branches in source order, with lengths in UTF-16 code units (definition) |
| `Selection.StripWhitespaceShorter` | src/main.ts:344 | removing the whitespace never makes a string longer, in characters or in UTF-16 code units |
| `Selection.StripWhitespaceKeeps` | src/main.ts:344 | a character survives the whitespace removal exactly when it occurs in the text and is not whitespace |
| `Selection.RejectsEmpty` | src/main.ts:331 | the empty string is rejected at every scale and for every range |
| `Selection.ValidateCharacterization` | src/main.ts:327-357 | for non-empty text the validator accepts exactly when the text has two or more UTF-16 code units, contains a word character, or its range ends lie in different containers |
| `Selection.ValidateIgnoresScale` | src/main.ts:333-336 | the verdict never depends on the current scale; the zoom > 2.0 branch is subsumed |
| `Selection.SingleWordCharAccepted` | src/main.ts:339-341 | a single word character is accepted at every zoom |
| `Selection.SingleSymbolRejected` | src/main.ts:343-356 | a single character of the Basic Multilingual Plane that is not a word character, in one container, is rejected |
| `Selection.SingleAstralAccepted` | src/main.ts:339-341 | a single character above U+FFFF is two code units long and so is accepted at every zoom |
| `Selection.CrossContainerAccepted` | src/main.ts:349-354 | every non-empty selection whose ends lie in different containers is accepted |
| `Selection.ValidatorExamples` | src/main.ts:327-357 | concrete verdicts: "ab" and "cat" accepted, "a" accepted at scale 1.0 and 2.5, "" and "-" rejected, U+1D465 accepted |
| `Selection.GateSelection` | src/main.ts:278-325 | the outcome of a mouse-up: nothing, marked, rejected with a hint, or too large, by the source's branches (definition) |
| `Selection.ClearingOf` | src/main.ts:301-324 | when the selection is removed: after 1500 ms when marked, after 1000 ms when rejected, at once when too large, otherwise never (definition) |
| `Selection.GateMarksIff` | src/main.ts:278-325 | a mouse-up marks text exactly when the selection is not collapsed, the trimmed text has 1 to 1999 UTF-16 code units, lies in a text layer, and passes the characterised validator |
| `Selection.GateIgnoresNothing` | src/main.ts:282-285 | a collapsed or empty-after-trim selection does nothing and keeps the selection |
| `Selection.GateTooLarge` | src/main.ts:320-324 | 2000 UTF-16 code units or more never mark and clear the selection at once |
| `Selection.GateOutsideLayer` | src/main.ts:290-319 | a selection of acceptable size outside a text layer does nothing |
| `Selection.GateFollowsValidator` | src/main.ts:297-316 | inside a text layer, a selection of acceptable size is marked iff the validator accepts it, and otherwise rejected with a hint |
| `Selection.AstralSelectionTooLarge` | src/main.ts:290-324 | 1000 characters above U+FFFF are 2000 code units, so such a selection is too large |
| `Zoom.ZoomInScale` | src/main.ts:432-436 | one step up never exceeds 5.0 nor the scale times 1.2; it is one of the two; it keeps a scale in [0.1, 5] |
| `Zoom.ZoomOutScale` | src/main.ts:438-442 | one step down never goes below 0.1 nor below the scale divided by 1.2; it is one of the two; it keeps a scale in [0.1, 5] |
| `Zoom.Clamp` | src/main.ts:169 | the result is always in [0.1, 5], equals an in-range input, and saturates at the bounds |
| `Zoom.FitToWidthScale` | src/main.ts:161-170 | always in [0.1, 5]; when unclamped, the padded container width is exactly 612 points at that scale |
| `Zoom.FitToPageScale` | src/main.ts:172-186 | always in [0.1, 5]; when unclamped, the 612 x 792 page fits the padded container at that scale and fills it in width or in height; below 0.1 in either direction it is 0.1, above 5 in both it is 5 |
| `Zoom.ClampMonotone` | src/main.ts:169 | clamping preserves order |
| `Zoom.FitToPageNoLargerThanWidth` | src/main.ts:172-186 | fitting the whole page never zooms in further than fitting the width |
| `Zoom.ZoomInThenOut` | src/main.ts:432-442 | zooming in then out restores the scale when the bound is not reached |
| `Zoom.ZoomOutThenIn` | src/main.ts:432-442 | zooming out then in restores the scale when the bound is not reached |
| `Zoom.ZoomSteps` | src/main.ts:432-442 | below 5.0 zooming in strictly grows a positive scale; above 0.1 zooming out strictly shrinks it |
| `Events.IndexOf` | public/viewer.js:23 | `indexOf`: -1 exactly when the listener is absent, otherwise the first position holding it |
| `Events.RemoveFirst` | public/viewer.js:23-26 | absent: unchanged; present: exactly the first occurrence is removed, one element shorter and the same multiset less one copy |
| `Events.OnMap` | public/viewer.js:9-16 | `on` appends the listener at the end of that event's list, creating the list if absent; other events' lists are untouched |
| `Events.OffMap` | public/viewer.js:18-27 | `off` removes the first occurrence from that event's list; unknown events or listeners change nothing; other lists are untouched |
| `Events.ApplyOpsAppend` | public/viewer.js:9-27 | applying two runs of `on`/`off` calls equals applying them one after the other |
| `Events.ApplyOp` | public/viewer.js:9-27 | one `on` or `off` call applied to the listener map (definition) |
| `Events.ApplyOps` | public/viewer.js:9-27 | a run of `on`/`off` calls applied in order (definition) |
| `Events.Reactions` | public/viewer.js:38-40 | what the called listeners do to the bus, in calling order (definition) |
| `Events.IndexOfAppendedFresh` | public/viewer.js:23 | a listener appended to a list that lacks it is found at the end |
| `Events.RemoveFirstAppendedFresh` | public/viewer.js:18-27 | removing a listener just appended to a list lacking it gives the list back |
| `Events.OffUndoesOn` | public/viewer.js:9-27 | `off` undoes an `on` of a listener the event did not hold (an absent event is left with an empty list) |
| `Events.OffRemovesEarliest` | public/viewer.js:18-27 | with a listener registered twice, `off` removes the earlier registration and keeps the later one |
| `Events.IndexOfPrefixFresh` | public/viewer.js:23 | `indexOf` finds the first occurrence past a prefix that lacks the listener |
| `Events.EventBus.constructor` | public/viewer.js:5-7 | a new bus has no listeners |
| `Events.EventBus.On` | public/viewer.js:9-16 | the listener map becomes `OnMap` of the old one |
| `Events.EventBus.Off` | public/viewer.js:18-27 | the listener map becomes `OffMap` of the old one |
| `Events.EventBus.Perform` | public/viewer.js:9-27 | a sequence of `on`/`off` calls leaves the map the operations give applied in order |
| `Events.EventBus.Dispatch` | public/viewer.js:29-42 | the listeners called are exactly the event's list at the start, in registration order (none for an unknown or empty event); what they do to the bus meanwhile takes effect on the bus but not on the snapshot |
| `TextLayer.SpanFor` | public/viewer.js:331-342 | the span a text item gets, placed by its transform (definition) |
| `TextLayer.SpanGeometry` | public/viewer.js:331-342 | a span's text is the item's string; its font size is the absolute value of `tx[0]`; its left is `tx[4]`; its top is the viewport height minus `tx[5]` minus the font size; its font family is the item's style's, and a missing style gives `sans-serif` |
| `TextLayer.BuildSpans` | public/viewer.js:315-351 | the spans of the items that pass the filter, in order (definition) |
| `TextLayer.VisibleItems` | public/viewer.js:315-316 | the items whose string is non-empty and not all whitespace, in order (definition) |
| `TextLayer.VisibleItemsAppend` | public/viewer.js:315-351 | filtering the items keeps their order across concatenation |
| `TextLayer.VisibleItemsExact` | public/viewer.js:316 | an item gets a span exactly when its string is non-empty and not all whitespace |
| `TextLayer.BuildSpansMatchVisible` | public/viewer.js:315-351 | one span per visible item, in item order, each the span built from that item |
| `TextLayer.DebugAll` | public/viewer.js:364-368 | debug mode restyles every span, one for one, and keeps their number |
| `TextLayer.EnhanceAll` | public/viewer.js:378-383 | enhanced selection restyles every span, one for one, and keeps their number; a zero font size gives a minimum height of 12 |
| `TextLayer.DebugSpan` | public/viewer.js:365-367 | a span restyled for debug mode (definition) |
| `TextLayer.EnhancedSpan` | public/viewer.js:379-382 | a span restyled for enhanced selection, with the `|| 12` font-size fallback (definition) |
| `TextLayer.CancelLayer` | public/viewer.js:389-397 | the overlay after `cancel()`: every child removed (definition) |
| `TextLayer.EnhancementsModel` | public/viewer.js:358-387 | the overlay after `applyEnhancements`: debug or transparent opacity, then the enhanced-selection styling when that flag is on (definition) |
| `TextLayer.RenderedLayer` | public/viewer.js:288-356 | the overlay after a rendering pass: emptied, sized to the viewport, one span per visible item, enhanced by the flags (definition) |
| `TextLayer.RenderedLayerSpans` | public/viewer.js:288-356 | after rendering, the overlay holds exactly one span per visible item, in item order, placed by the item's transform, whatever the flags and the old children |
| `TextLayer.RenderedLayerForgetsChildren` | public/viewer.js:300 | what the overlay held before a rendering pass has no effect on the result |
| `TextLayer.CancelThenRenderCount` | public/viewer.js:389-397 | cancel followed by render leaves exactly the new content's span count |
| `TextLayer.LayerDiv.constructor` | public/viewer.js:216-222 | the new overlay element is empty, transparent, unsized, and does not take the pointer |
| `TextLayer.TextLayerBuilder.constructor` | public/viewer.js:275-282 | a new builder has the given element, page index and viewport, no text content, and no pass done |
| `TextLayer.TextLayerBuilder.SetTextContent` | public/viewer.js:284-286 | only the text content changes |
| `TextLayer.TextLayerBuilder.Render` | public/viewer.js:288-356 | without text content or after a pass, nothing changes; otherwise the overlay becomes `RenderedLayer` of the old one (emptied, sized to the viewport, one span per visible item, enhanced by the flags) and the pass is marked done |
| `TextLayer.TextLayerBuilder.ApplyEnhancements` | public/viewer.js:358-387 | the overlay becomes `EnhancementsModel` of the old one: debug or transparent opacity, then enhanced-selection styling when that flag is on |
| `TextLayer.TextLayerBuilder.RestyleSpans` | public/viewer.js:364-368 | every span of the overlay is restyled in place; nothing else changes |
| `TextLayer.TextLayerBuilder.Cancel` | public/viewer.js:389-397 | the done mark is cleared and the overlay emptied, so cancelling twice equals cancelling once |
| `TextLayer.TextLayerFactory.CreateTextLayerBuilder` | public/viewer.js:400-404 | a fresh builder over the given element, index and viewport, with nothing rendered |
| `PageView.RemainderBy360` | public/viewer.js:63 | JavaScript's `% 360`: strictly between -360 and 360, with the sign of the dividend, and congruent to it |
| `PageView.Floor` | public/viewer.js:75-76 | `Math.floor`: the greatest integer not above the value |
| `PageView.TotalRotation` | public/viewer.js:63 | `(rotation + rotate) % 360` with JavaScript's remainder (definition) |
| `PageView.NewPageModel` | public/viewer.js:46-58 | a new page view from its options (definition) |
| `PageView.AttachModel` | public/viewer.js:228-230 | the page view with its overlay element attached (definition) |
| `PageView.NewPageDefaults` | public/viewer.js:46-58 | a new page view has `scale || 1`, NOT_RENDERED, and nothing attached |
| `PageView.SetPdfPageViewport` | public/viewer.js:60-68 | the viewport is taken at the page view's own scale and a total rotation in (-360, 360), and the state stays well-formed |
| `PageView.TotalRotationNonNegative` | public/viewer.js:63 | non-negative total rotations reduce as ordinary modular arithmetic |
| `PageView.TotalRotationNegative` | public/viewer.js:63 | a negative total rotation stays negative: -90 stays -90 |
| `PageView.SetPdfPageModel` | public/viewer.js:60-68 | the page view after `setPdfPage`: the page and a viewport at its scale and total rotation (definition) |
| `PageView.ResetModel` | public/viewer.js:70-98 | the page view after `reset` (definition) |
| `PageView.UpdateModel` | public/viewer.js:100-112 | the page view after `update(scale, rotation)` (definition) |
| `PageView.DrawModel` | public/viewer.js:114-162 | the page view and the success flag after `draw` (definition) |
| `PageView.ResetClears` | public/viewer.js:70-98 | `reset` leaves NOT_RENDERED with no builder; an attached page has an empty overlay and a canvas at the viewport size, and a page box whose width and height are the floored viewport sizes, with the viewport, scale and page unchanged |
| `PageView.ResetIdempotent` | public/viewer.js:70-98 | resetting twice equals resetting once |
| `PageView.UpdateScale` | public/viewer.js:100-112 | a zero scale keeps the old scale, a missing rotation keeps the old rotation, the viewport is recomputed only with a page set, and the page ends NOT_RENDERED |
| `PageView.DrawOkIff` | public/viewer.js:114-162 | `draw` succeeds exactly when the canvas is attached, the page renders, and (with a factory) its text content arrives |
| `PageView.DrawRenderingState` | public/viewer.js:114-162 | a successful draw ends FINISHED, a failed one ERROR except without a canvas (RUNNING); the viewport and scale are kept |
| `PageView.DrawnTextLayer` | public/viewer.js:139-155 | a successful draw with a factory leaves a done builder with index `id - 1` and one span per visible item, in order, placed by the viewport drawn at |
| `PageView.EnhancementsIdempotent` | public/viewer.js:358-387 | applying the flag effects twice sets the same layer properties as applying them once |
| `PageView.DrawIdempotent` | public/viewer.js:114-162 | drawing again with the same flags changes nothing: spans are replaced, never accumulated |
| `PageView.PDFPageView.constructor` | public/viewer.js:46-58 | the state is `NewPageModel` of the options |
| `PageView.PDFPageView.Attach` | public/viewer.js:228-230 | the page gets its overlay element and nothing else changes |
| `PageView.PDFPageView.SetPdfPage` | public/viewer.js:60-68 | the state becomes `SetPdfPageModel` of the old one |
| `PageView.PDFPageView.Reset` | public/viewer.js:70-98 | the state becomes `ResetModel` of the old one |
| `PageView.PDFPageView.Update` | public/viewer.js:100-112 | the state becomes `UpdateModel` of the old one |
| `PageView.PDFPageView.Draw` | public/viewer.js:114-162 | the state and the success flag are `DrawModel` of the old state |
| `PageView.PDFPageView.ReplaceTextLayer` | public/viewer.js:143-155 | the old builder is cancelled, and a new builder for the same element is made, given the content, and rendered |
| `Viewer.ScaleAfter` | public/viewer.js:255-266 | the scale the `currentScaleValue` setter stores (definition) |
| `Viewer.RedrawnFrom` | public/viewer.js:241-249 | the pages after `update()`: redrawn in page order up to and including the first whose draw throws, the rest as they were (definition) |
| `Viewer.PreparedPageModel` | public/viewer.js:193-234 | a page view created, attached, given its page and reset, before any draw (definition) |
| `Viewer.SetupPageModel` | public/viewer.js:206-239 | a prepared page view, drawn when it is the current page (definition) |
| `Viewer.RedrawModel` | public/viewer.js:243-247 | one page of `update()`: `update(scale, rotation)` then `draw()` (definition) |
| `Viewer.SetUpFrom` | public/viewer.js:191-239 | the page views are those `setDocument` creates, one per page in order, each `SetupPageModel` of its page; the `SetDocument` and `LoadDocument` contracts are stated with it (definition) |
| `Viewer.ScaleAfterCases` | public/viewer.js:255-266 | a number is stored as it is; 'page-width' with a first viewport makes the padded container width exactly the first page's width at the new scale; anything else keeps the scale |
| `Viewer.SetupPageNotDrawn` | public/viewer.js:191-239 | a page that is not current is set up NOT_RENDERED with no builder, the viewport at `scale || 1`, and an empty overlay sized to it |
| `Viewer.SetupPageDrawn` | public/viewer.js:206-239 | the current page is drawn once set up: FINISHED exactly when it renders and, with a factory, its text arrives; otherwise ERROR; on success one span per visible item |
| `Viewer.SetUpDrawsOnlyCurrent` | public/viewer.js:236-238 | after `setDocument` exactly the page whose number is the viewer's current page has left NOT_RENDERED; a number naming no page leaves all pages undrawn |
| `Viewer.RedrawAllSucceed` | public/viewer.js:241-249 | when every page is attached, renders and yields its text, `update` redraws them all and none fails |
| `Viewer.SimplePDFViewer.constructor` | public/viewer.js:166-177 | no document, no pages, page 1, scale 1.0, rotation 0 |
| `Viewer.SimplePDFViewer.PreparePageView` | public/viewer.js:193-235 | a fresh page view, attached to a fresh overlay element, given its page, and reset |
| `Viewer.SimplePDFViewer.SetupPageView` | public/viewer.js:206-239 | the page view is prepared and, when it is the current page, drawn |
| `Viewer.SimplePDFViewer.SetupPages` | public/viewer.js:191-204 | exactly one page view per page, ids 1 to N in order, each set up from its page and drawn only when current |
| `Viewer.SimplePDFViewer.SetDocument` | public/viewer.js:179-189 | the document and its page count are stored, the pages are replaced by the set-up page views, and the page number, scale and rotation are kept |
| `Viewer.SimplePDFViewer.RedrawPages` | public/viewer.js:241-249 | the pages are redrawn in page order, up to and including the first whose draw throws, and the rest are left as they were |
| `Viewer.SimplePDFViewer.RedrawPage` | public/viewer.js:243-247 | one page is updated to the viewer's scale and rotation and drawn; the other pages are unchanged |
| `Viewer.SimplePDFViewer.Update` | public/viewer.js:241-249 | the pages become `RedrawnFrom` the old ones; the page list, document, page number, scale and rotation are unchanged |
| `Viewer.SimplePDFViewer.SetCurrentScaleValue` | public/viewer.js:255-266 | the scale becomes `ScaleAfter` of the value and the first page's viewport, and then every page is redrawn in order |
| `Viewer.SimplePDFViewer.ScaleFor` | public/viewer.js:256-264 | the scale the setter computes, without changing anything |
| `Viewer.SimplePDFViewer.RecalculateTextLayer` | public/viewer.js:268-271 | redraws every page in order at the unchanged scale |
| `App.TotalPagesShown` | src/main.ts:463 | the page count, or 1 when it is missing or zero: at least 1, the page count whenever there is at least one page, and 1 otherwise |
| `App.UpdateUIModel` | src/main.ts:461-477 | the toolbar refreshed from the page and the document (definition) |
| `App.GoToModel` | src/main.ts:424-430 | `goToPage(n)`: with a viewer, the viewer's and the app's page become `n` and the toolbar is refreshed (definition) |
| `App.PreviousModel` | src/main.ts:410-415 | `previousPage` (definition) |
| `App.NextModel` | src/main.ts:417-422 | `nextPage` (definition) |
| `App.PageInputModel` | src/main.ts:136-144 | `handlePageInput` with the parsed number (definition) |
| `App.SetZoomModel` | src/main.ts:188-194 | `setZoom`: the app and the viewer take the scale (definition) |
| `App.FitModel` | src/main.ts:161-186 | `fitToWidth`/`fitToPage`: nothing without a viewer and a document (definition) |
| `App.ZoomSelectModel` | src/main.ts:146-159 | `handleZoomSelect` by choice (definition) |
| `App.SelectedScale` | src/main.ts:146-159 | the scale a zoom-select choice hands the viewer, or none (definition) |
| `App.LoadModel` | src/main.ts:253-276 | `loadPDF` once parsed, as written (definition) |
| `App.LoadFromFirstPageModel` | src/main.ts:264-267 | `loadPDF` with the viewer also reset to page 1 (definition) |
| `App.FirstWithId` | src/main.ts:394 | -1 exactly when no mark has the id, otherwise the first mark with it |
| `App.NavigationKeepsRange` | src/main.ts:410-430 | previous, next and a typed page number keep the page between 1 and the number of pages shown |
| `App.NavigationKeepsToolbar` | src/main.ts:136-144 | with a viewer, every navigation step leaves the toolbar in step and the viewer on the app's page |
| `App.DisabledButtonsAreNoOps` | src/main.ts:475-476 | the previous button is disabled exactly when going back does nothing, and the next button exactly when going forward keeps the page |
| `App.PreviousNextRoundTrip` | src/main.ts:410-422 | going back then forward, or forward then back, returns to the same page |
| `App.PageInputMovesIff` | src/main.ts:136-144 | a typed number moves the page only when it is a page of the loaded document and a viewer exists; otherwise only the input is restored |
| `App.ZoomKeepsRange` | src/main.ts:146-194 | zooming in, zooming out, fitting and a numeric choice in range keep the scale in [0.1, 5] with the viewer's scale following; a non-numeric choice changes nothing at all |
| `App.ZoomSelectFollowsScale` | src/main.ts:146-159 | a zoom-select choice with no scale for the viewer leaves the app as it was; one with a scale is `setZoom` of that scale |
| `App.FindAfterAdd` | src/main.ts:359-372 | a mark added with an id no earlier mark has is the one copying that id finds |
| `App.FindStableUnderAdd` | src/main.ts:359-402 | adding a mark never changes which mark an already present id finds |
| `App.LoadResetsPage` | src/main.ts:264-268 | after loading with a viewer the app shows page 1 and its toolbar is in step |
| `App.StaleViewerPageOnLoad` | src/main.ts:264-268 | as written: with the viewer on page 5, loading a three-page document shows page 1 in the toolbar while the viewer stays on page 5, and the page views `setDocument` leaves are all NOT_RENDERED |
| `App.LoadFromFirstPageDrawsFirst` | src/main.ts:264-268 | with the viewer also reset, loading a non-empty document draws page 1, the page the toolbar shows, and no other: it is FINISHED exactly when it renders and, with a factory, its text arrives |
| `App.PDFViewerApp.constructor` | src/main.ts:46-51 | no document, page 1, scale 1.0, no marks, the toolbar in step, and a viewer on page 1 at scale 1.0 when one is available |
| `App.PDFViewerApp.UpdateUI` | src/main.ts:461-477 | the toolbar shows the page, the number of pages shown, and the two disabled states |
| `App.PDFViewerApp.HandleTextSelection` | src/main.ts:278-325 | the outcome is the gate on the trimmed text; the clearing follows the outcome; exactly when marked, one entry with the trimmed text is appended |
| `App.PDFViewerApp.AddMarkedText` | src/main.ts:359-372 | exactly one entry is appended at the end, with the content, the current page number, the id and the timestamp; earlier entries are unchanged |
| `App.PDFViewerApp.CopyText` | src/main.ts:393-402 | nothing is copied exactly when no mark has the id; otherwise the first such mark's content |
| `App.PDFViewerApp.ClearMarkedTexts` | src/main.ts:404-408 | the list is empty and nothing else changes |
| `App.PDFViewerApp.GoToPage` | src/main.ts:424-430 | the state becomes `GoToModel` of the old one; the viewer's pages, footprint, scale, rotation and page states are unchanged, so nothing is drawn |
| `App.PDFViewerApp.PreviousPage` | src/main.ts:410-415 | the state becomes `PreviousModel` of the old one; the viewer's pages, footprint, scale, rotation and page states are unchanged, so nothing is drawn |
| `App.PDFViewerApp.NextPage` | src/main.ts:417-422 | the state becomes `NextModel` of the old one; the viewer's pages, footprint, scale, rotation and page states are unchanged, so nothing is drawn |
| `App.PDFViewerApp.HandlePageInput` | src/main.ts:136-144 | the state becomes `PageInputModel` of the old one; the viewer's pages, footprint, scale, rotation and page states are unchanged, so nothing is drawn |
| `App.PDFViewerApp.SetZoom` | src/main.ts:188-194 | the app and the viewer take the scale, and the viewer redraws its pages in order |
| `App.PDFViewerApp.ZoomIn` | src/main.ts:432-436 | the scale becomes `ZoomInScale` of the old one, and the viewer's pages are redrawn in order at it |
| `App.PDFViewerApp.ZoomOut` | src/main.ts:438-442 | the scale becomes `ZoomOutScale` of the old one, and the viewer's pages are redrawn in order at it |
| `App.PDFViewerApp.FitToWidth` | src/main.ts:161-170 | with a viewer and a document the scale becomes `FitToWidthScale` and the pages are redrawn in order at it; otherwise nothing changes and no page is touched |
| `App.PDFViewerApp.FitToPage` | src/main.ts:172-186 | with a viewer and a document the scale becomes `FitToPageScale` and the pages are redrawn in order at it; otherwise nothing changes and no page is touched |
| `App.PDFViewerApp.HandleZoomSelect` | src/main.ts:146-159 | 'auto' fits the width, 'page-fit' fits the page, a number sets it, and anything else changes nothing; the pages are redrawn at the `SelectedScale` when there is one and untouched otherwise |
| `App.PDFViewerApp.RecalculateTextLayer` | src/main.ts:611-621 | with a viewer and a document, the viewer takes the app's scale again and redraws every page; otherwise nothing changes, the viewer's page views included |
| `App.PDFViewerApp.LoadDocument` | src/main.ts:253-276 | a failed parse changes nothing, the viewer's page views included; otherwise the document is kept, the app returns to page 1, and the viewer sets one page view up per page, of which exactly the one numbered by the viewer's old page number is drawn |
| `App.PDFViewerApp.LoadDocumentFromFirstPage` | src/main.ts:253-276 | as `LoadDocument`, with the viewer also set back to page 1, so that page 1 and no other is drawn |

## Left out

- Lone UTF-16 surrogates: a Dafny string holds Unicode scalar values, so a JavaScript string
  with an unpaired surrogate has no counterpart.
- I/O and the DOM: the element lookups, event-listener wiring, the file input, drag and drop,
  `file.arrayBuffer()`, `pdfjsLib.getDocument`, and all `console` output. A parsed document
  arrives as `Option<DocumentHandle>`, with `None` for a rejected parse.
- `initializePDFViewer`'s wait for `viewer.js`, polled every 100 ms: the constructor takes
  `viewerAvailable`, which says whether the viewer exists from the start.
- The app's `EventBus` and its `'pagesinit'` listener: nothing in the source ever dispatches
  `'pagesinit'`.
- `Events.EventBus.Dispatch`: a listener that throws, which stops the `forEach` and makes
  `dispatch` rethrow; the event object built from `source`, `type` and `data`, which no listener
  in the model receives, since a listener's reaction depends only on the listener; and a
  `dispatch` made from inside a listener. Listeners here only call `on` and `off`.
- `PDFPageView`'s `eventBus` field, which no method reads.
- `showTooltip`, `showError`, `showLoading`, `updateMarkedTextsList`, `escapeHtml` and
  `updateZoomDisplay`: presentation only.
- `applyZoom`, which is never called.
- `toggleDebugMode` and `toggleEnhancedSelection`: the two flags they flip are `DisplayFlags`
  parameters.
- The clipboard write and its promise in `copyText`: `CopyText` returns the content it would
  write.
- The `setTimeout` delays before the selection is cleared: they are the `Clearing` value.
- `parseInt`, `parseFloat`, `NaN` and `Infinity`: parsed values arrive as `Option`, and scales
  are exact reals, not IEEE-754 doubles.
- The `Date.now()` id and `new Date()` timestamp: parameters.
- Concurrency. The `currentScaleValue` setter does not await `update()`, and `_setupPageView`
  continues after `getPage` settles. Each call here runs to completion before the next one
  starts. A rejected `getPage` is not modelled.
- `LoadDocument`: the app's page reset and toolbar refresh are done before `setDocument`. The
  source does them after it, but the viewer sets its pages up only once each `getPage` has
  settled, and it never reads the app's fields.
- The canvas context, the `render` call's parameters, the canvas's integer size conversion, and
  the constant span styles (`position`, `whiteSpace`, `cursor`, `transformOrigin`, padding, …).
  Only the styles the builder varies are kept. `fontScale`, which is computed and never read,
  is left out.
- `TextLayerBuilder.renderTask`: it is always `null`, so the branch of `cancel` that uses it is
  dead code.
- `_resetView`'s clearing of the viewer element, and the page `div` and canvas elements: a page
  view's attachment is its overlay element, and the page box and canvas sizes are values.
- The `currentScaleValue` getter, which only returns `currentScale`.
- `Viewer.SimplePDFViewer.SetCurrentScaleValue`: it requires the first page's viewport width to be
  non-zero for `'page-width'`. In JavaScript that division by zero gives `Infinity`, which exact
  reals do not have.
- `Viewer.SimplePDFViewer.ScaleFor`: the same non-zero width requirement, for the same reason.
- `Viewer.ScaleAfter`: it requires the first page's viewport width to be non-zero for
  `'page-width'`, because the JavaScript result of dividing by zero, `Infinity`, has no exact real.
- `Viewer.ScaleAfterCases`: the same non-zero width requirement, for the same reason.
- `App.PDFViewerApp.GoToPage`: it requires `n >= 1`. Every caller passes a page number of at least
  1, so the app's page number stays positive.
- `App.LoadResetsPage`: stated only with a viewer. Without one, `loadPDF` keeps the old page
  number, which `previousPage`/`nextPage` may have moved beyond the new document's page count.

## Findings

| source | as written | input that shows it | evidently intended | confidence | as-written member | corrected member |
|---|---|---|---|---|---|---|
| src/main.ts:264-267 | `loadPDF` calls `setDocument` and resets only the app's `currentPageNumber` to 1, so the viewer draws the page its own `currentPageNumber` still names (public/viewer.js:236-238) | the viewer on page 5 of a first document, then a three-page document is loaded: the toolbar shows page 1, and no page is drawn because the viewer still looks for page 5 | loading a document draws page 1, the page the toolbar shows | not executed; follows from the code as read | `App.StaleViewerPageOnLoad` | `App.LoadFromFirstPageDrawsFirst` |

`App.PDFViewerApp.LoadDocument` models `loadPDF` as written. `App.PDFViewerApp.LoadDocumentFromFirstPage`
also sets the viewer's page number back to 1 before `setDocument`. Their postconditions say
which page views leave NOT_RENDERED (`Viewer.SetUpDrawsOnlyCurrent`), and the two lemmas of
the table state the consequence for those post-states.
