/**
 * The selection-to-mark decision of `PDFViewerApp`: the validator
 * `validateTextSelection` and the size gate in `handleTextSelection`.
 */
module Selection {
  import opened Chars

  /** Trimmed selections at least this long are treated as accidental whole-page selections. */
  const MAX_SELECTION_LENGTH: nat := 2000

  /** Above this scale a single word of three or more word characters is accepted on its own. */
  const HIGH_ZOOM: real := 2.0

  /** `/\w+/.test(t)`: some character is a word character. */
  predicate HasWordChar(t: string) {
    exists i :: 0 <= i < |t| && IsWordChar(t[i])
  }

  /** `/\w{3,}/.test(t)`: three consecutive word characters. */
  predicate HasWordRun3(t: string) {
    exists i :: 0 <= i && i + 3 <= |t| && IsWordChar(t[i]) && IsWordChar(t[i + 1]) && IsWordChar(t[i + 2])
  }

  /** `t.replace(/\s+/g, '')`: every whitespace character removed. */
  function StripWhitespace(t: string): string {
    if t == [] then []
    else (if IsJsWhitespace(t[0]) then [] else [t[0]]) + StripWhitespace(t[1..])
  }

  /** Removing whitespace never makes a string longer, in code points or in UTF-16 code units. */
  lemma {:induction false} StripWhitespaceShorter(t: string)
    ensures |StripWhitespace(t)| <= |t|
    ensures Utf16Length(StripWhitespace(t)) <= Utf16Length(t)
  {
    if t != [] {
      StripWhitespaceShorter(t[1..]);
      Utf16LengthAppend(if IsJsWhitespace(t[0]) then [] else [t[0]], StripWhitespace(t[1..]));
    }
  }

  /** Stripping keeps exactly the non-whitespace characters. */
  lemma {:induction false} StripWhitespaceKeeps(t: string, c: char)
    ensures c in StripWhitespace(t) <==> c in t && !IsJsWhitespace(c)
  {
    if t != [] {
      StripWhitespaceKeeps(t[1..], c);
      assert t == [t[0]] + t[1..];
    }
  }

  /**
   * `validateTextSelection(text, range)` with `this.currentScale` as `scale` and
   * `range.startContainer !== range.endContainer` as `containersDiffer`; the
   * branches are tested in the order `validateTextSelection` tests them, and
   * `length` counts UTF-16 code units.
   */
  function ValidateTextSelection(text: string, scale: real, containersDiffer: bool): bool {
    if Utf16Length(text) < 1 then false
    else if scale > HIGH_ZOOM && Utf16Length(text) >= 3 && HasWordRun3(text) then true
    else if Utf16Length(text) >= 2 || HasWordChar(text) then true
    else if Utf16Length(StripWhitespace(text)) >= 2 then true
    else if containersDiffer then true
    else false
  }

  /** The empty string is rejected whatever the scale and the range. */
  lemma RejectsEmpty(scale: real, containersDiffer: bool)
    ensures !ValidateTextSelection("", scale, containersDiffer)
  {
  }

  /**
   * For non-empty text the validator accepts exactly when the text is two or more
   * UTF-16 code units long, contains a word character, or spans two containers: the high-zoom
   * branch and the stripped-whitespace branch never decide anything on their own.
   */
  lemma {:induction false} ValidateCharacterization(text: string, scale: real, containersDiffer: bool)
    requires |text| >= 1
    ensures ValidateTextSelection(text, scale, containersDiffer)
            <==> Utf16Length(text) >= 2 || HasWordChar(text) || containersDiffer
  {
    StripWhitespaceShorter(text);
    if HasWordRun3(text) {
      var i :| 0 <= i && i + 3 <= |text| && IsWordChar(text[i]) && IsWordChar(text[i + 1]) && IsWordChar(text[i + 2]);
      assert IsWordChar(text[i]);
    }
  }

  /** The result never depends on the current scale. */
  lemma ValidateIgnoresScale(text: string, scale1: real, scale2: real, containersDiffer: bool)
    ensures ValidateTextSelection(text, scale1, containersDiffer) == ValidateTextSelection(text, scale2, containersDiffer)
  {
    if |text| >= 1 {
      ValidateCharacterization(text, scale1, containersDiffer);
      ValidateCharacterization(text, scale2, containersDiffer);
    }
  }

  /** A single word character is accepted at any zoom, in one container or two. */
  lemma SingleWordCharAccepted(c: char, scale: real, containersDiffer: bool)
    requires IsWordChar(c)
    ensures ValidateTextSelection([c], scale, containersDiffer)
  {
    assert IsWordChar([c][0]);
  }

  /** A single code point up to U+FFFF that is not a word character, inside one container, is rejected. */
  lemma SingleSymbolRejected(c: char, scale: real)
    requires !IsWordChar(c) && c as int <= 0xFFFF
    ensures !ValidateTextSelection([c], scale, false)
  {
    ValidateCharacterization([c], scale, false);
  }

  /** A single code point above U+FFFF is two UTF-16 code units long, and so always accepted. */
  lemma SingleAstralAccepted(c: char, scale: real, containersDiffer: bool)
    requires c as int > 0xFFFF
    ensures ValidateTextSelection([c], scale, containersDiffer)
  {
    assert Utf16Length([c]) == 2;
  }

  /** Any non-empty selection whose ends lie in different containers is accepted. */
  lemma CrossContainerAccepted(text: string, scale: real)
    requires |text| >= 1
    ensures ValidateTextSelection(text, scale, true)
  {
    ValidateCharacterization(text, scale, true);
  }

  /** The concrete cases: "ab" and "cat" are accepted, and so is "a", even at 2.5. */
  lemma ValidatorExamples()
    ensures ValidateTextSelection("ab", 1.0, false)
    ensures ValidateTextSelection("cat", 2.5, false)
    ensures ValidateTextSelection("a", 1.0, false) && ValidateTextSelection("a", 2.5, false)
    ensures ValidateTextSelection("a", 1.0, true)
    ensures !ValidateTextSelection("", 2.5, true)
    ensures ValidateTextSelection("\U{1D465}", 1.0, false) && !ValidateTextSelection("-", 1.0, false)
  {
    SingleAstralAccepted('\U{1D465}', 1.0, false);
    SingleSymbolRejected('-', 1.0);
    SingleWordCharAccepted('a', 1.0, false);
    SingleWordCharAccepted('a', 2.5, false);
  }

  /** What `handleTextSelection` does with one mouse-up. */
  datatype SelectionOutcome =
    | NoSelection       // no selection, or a collapsed one: return at once
    | EmptyAfterTrim    // the trimmed text is empty: nothing happens
    | TooLarge          // 2000 characters or more: hint, selection cleared at once
    | OutsideTextLayer  // not inside a `.textLayer` element: nothing happens
    | Rejected          // the validator refused: hint, selection cleared after 1000 ms
    | Marked            // the validator accepted: entry added, selection cleared after 1500 ms

  /** How the browser selection is cleared after an outcome. */
  datatype Clearing = KeepSelection | ClearNow | ClearAfter(milliseconds: nat)

  /**
   * The gate of `handleTextSelection`, on the trimmed text, with `inTextLayer` for
   * "the range's common ancestor lies inside a `.textLayer`".
   */
  function GateSelection(collapsed: bool, text: string, inTextLayer: bool, scale: real, containersDiffer: bool): SelectionOutcome {
    if collapsed then NoSelection
    else if Utf16Length(text) > 0 && Utf16Length(text) < MAX_SELECTION_LENGTH then
      if !inTextLayer then OutsideTextLayer
      else if ValidateTextSelection(text, scale, containersDiffer) then Marked
      else Rejected
    else if Utf16Length(text) >= MAX_SELECTION_LENGTH then TooLarge
    else EmptyAfterTrim
  }

  function ClearingOf(outcome: SelectionOutcome): Clearing {
    match outcome
    case TooLarge => ClearNow
    case Rejected => ClearAfter(1000)
    case Marked => ClearAfter(1500)
    case _ => KeepSelection
  }

  /**
   * A selection is marked exactly when it is an uncollapsed selection of 1..1999
   * trimmed UTF-16 code units inside a text layer that is two or more code units
   * long, has a word character, or ends in two containers.
   */
  lemma GateMarksIff(collapsed: bool, text: string, inTextLayer: bool, scale: real, containersDiffer: bool)
    ensures GateSelection(collapsed, text, inTextLayer, scale, containersDiffer) == Marked
            <==> !collapsed && 0 < Utf16Length(text) < MAX_SELECTION_LENGTH && inTextLayer
                 && (Utf16Length(text) >= 2 || HasWordChar(text) || containersDiffer)
  {
    if |text| >= 1 {
      ValidateCharacterization(text, scale, containersDiffer);
    }
  }

  /** Collapsed or empty selections do nothing and keep the selection. */
  lemma GateIgnoresNothing(collapsed: bool, text: string, inTextLayer: bool, scale: real, containersDiffer: bool)
    requires collapsed || text == []
    ensures GateSelection(collapsed, text, inTextLayer, scale, containersDiffer) in {NoSelection, EmptyAfterTrim}
    ensures ClearingOf(GateSelection(collapsed, text, inTextLayer, scale, containersDiffer)) == KeepSelection
  {
  }

  /** 2000 UTF-16 code units or more never mark and clear the selection at once. */
  lemma GateTooLarge(text: string, inTextLayer: bool, scale: real, containersDiffer: bool)
    requires Utf16Length(text) >= MAX_SELECTION_LENGTH
    ensures GateSelection(false, text, inTextLayer, scale, containersDiffer) == TooLarge
    ensures ClearingOf(TooLarge) == ClearNow
  {
  }

  /** Outside a text layer a selection of acceptable size does nothing. */
  lemma GateOutsideLayer(text: string, scale: real, containersDiffer: bool)
    requires 0 < Utf16Length(text) < MAX_SELECTION_LENGTH
    ensures GateSelection(false, text, false, scale, containersDiffer) == OutsideTextLayer
    ensures ClearingOf(OutsideTextLayer) == KeepSelection
  {
  }

  /** Inside a text layer, a selection of acceptable size is marked iff the validator accepts it. */
  lemma GateFollowsValidator(text: string, scale: real, containersDiffer: bool)
    requires 0 < Utf16Length(text) < MAX_SELECTION_LENGTH
    ensures GateSelection(false, text, true, scale, containersDiffer)
            == (if ValidateTextSelection(text, scale, containersDiffer) then Marked else Rejected)
  {
  }

  /** A thousand code points above U+FFFF are already 2000 code units: too large, whatever else holds. */
  lemma {:induction false} AstralSelectionTooLarge(text: string, inTextLayer: bool, scale: real, containersDiffer: bool)
    requires |text| >= 1000 && forall k :: 0 <= k < |text| ==> text[k] as int > 0xFFFF
    ensures GateSelection(false, text, inTextLayer, scale, containersDiffer) == TooLarge
  {
    Utf16LengthAstral(text);
  }
}
