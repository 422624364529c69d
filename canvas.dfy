/** The label-editing session of the story canvas screen: the text labels
    placed on the media, the text tool's draft, and the handlers of the drag,
    pinch and options-panel pan gestures. The session object gathers the
    screen's mutable record (`ref.current`) and the screen's state values; it
    is changed in place by every handler, exactly as the screen does. */
module Canvas {
  import opened Placement
  import opened Proximity

  /** The states a gesture handler reports on a state change. */
  datatype GestureState = Undetermined | Failed | Began | Cancelled | Active | End

  /** Font size every label is created with. */
  const LabelFontSize: int := 40

  /** The text tool's draft: text typed so far, colour, alignment and
      whether the text is drawn on a coloured background. */
  datatype Draft = Draft(text: string, color: string, align: Align, background: bool)

  /** The draft the text tool opens with: empty white centred text with no
      background. */
  const FreshDraft: Draft := Draft("", "#fff", Center, false)

  /** One text label on the canvas. Its creation parameters never change;
      `x`, `y` and `ratio` are the committed position and scale, and
      `animX`, `animY` and `animRatio` the values the label is drawn with
      (the animated values the gesture handlers set). */
  class Label {
    const zIndex: int
    const color: string
    const fontSize: int
    const text: string
    const textAlign: Align
    const textBg: bool
    const width: real
    const height: real
    var x: real
    var y: real
    var ratio: real
    var animX: real
    var animY: real
    var animRatio: real

    /** A new label at scale 1, drawn where it is committed. */
    constructor (zIndex: int, draft: Draft, x: real, y: real, width: real, height: real)
      ensures this.zIndex == zIndex && fontSize == LabelFontSize
      ensures color == draft.color && text == draft.text
      ensures textAlign == draft.align && textBg == draft.background
      ensures this.x == x && this.y == y && this.width == width && this.height == height
      ensures ratio == 1.0
      ensures animX == x && animY == y && animRatio == 1.0
    {
      this.zIndex := zIndex;
      color := draft.color;
      fontSize := LabelFontSize;
      text := draft.text;
      textAlign := draft.align;
      textBg := draft.background;
      this.x := x;
      this.y := y;
      this.width := width;
      this.height := height;
      ratio := 1.0;
      animX := x;
      animY := y;
      animRatio := 1.0;
    }
  }

  /** The z-indices of a list of labels, in list order. */
  function ZIndices(ls: seq<Label>): (zs: seq<int>)
    ensures |zs| == |ls|
    ensures forall i :: 0 <= i < |ls| ==> zs[i] == ls[i].zIndex
  {
    seq(|ls|, i requires 0 <= i < |ls| => ls[i].zIndex)
  }

  lemma ZIndicesAppend(ls: seq<Label>, l: Label)
    ensures ZIndices(ls + [l]) == ZIndices(ls) + [l.zIndex]
  {
  }

  lemma ZIndicesRemoveAt(ls: seq<Label>, index: nat)
    requires index < |ls|
    ensures ZIndices(RemoveAt(ls, index)) == RemoveAt(ZIndices(ls), index)
  {
  }

  /** Labels with pairwise different z-indices are pairwise different
      objects, so a handler that changes the label at one index changes no
      other entry of the list. */
  lemma DistinctLabels(ls: seq<Label>, index: nat)
    requires StrictlyIncreasing(ZIndices(ls))
    requires index < |ls|
    ensures forall k :: 0 <= k < |ls| && k != index ==> ls[k] != ls[index]
  {
  }

  class Session {
    /** Window metrics, read once when the screen module loads. */
    const screenWidth: real
    const screenHeight: real
    const statusBarHeight: real
    /** Where the trash can sits. */
    const trashCanX: real
    const trashCanY: real

    /** The labels created on this media item, in creation order. */
    var texts: seq<Label>
    /** The media's other labels; no operation of the screen adds to it. */
    const labels: seq<Label>
    /** The last measured size of the draft text. */
    var textWidth: real
    var textHeight: real
    /** Set by the trash-can animations when they complete. */
    var zoomTrashCan: bool
    /** Committed offset of the options panel. */
    var labelContainerY: real
    /** The animated offset the options-panel pan handler sets; no view of
        the screen reads it. */
    var labelWrapperY: real

    /** True while a label is being dragged (hides the top options). */
    var draggingLabel: bool
    var draft: Draft
    /** True while the text tool is open. */
    var textVisible: bool

    /** Labels are stacked in creation order: each label's z-index is above
        those of the labels before it. */
    ghost predicate Valid()
      reads this
    {
      StrictlyIncreasing(ZIndices(texts))
    }

    twostate predicate LabelsKept()
      reads this
    {
      texts == old(texts) && zoomTrashCan == old(zoomTrashCan) && draggingLabel == old(draggingLabel)
    }

    twostate predicate PanelKept()
      reads this
    {
      labelContainerY == old(labelContainerY) && labelWrapperY == old(labelWrapperY)
    }

    twostate predicate ToolKept()
      reads this
    {
      draft == old(draft) && textVisible == old(textVisible)
      && textWidth == old(textWidth) && textHeight == old(textHeight)
    }

    twostate predicate LabelKept(l: Label)
      reads l
    {
      l.x == old(l.x) && l.y == old(l.y) && l.ratio == old(l.ratio)
      && l.animX == old(l.animX) && l.animY == old(l.animY) && l.animRatio == old(l.animRatio)
    }

    /** Every label of `ls` other than the one at `index` is unchanged. */
    twostate predicate OthersKept(ls: seq<Label>, index: nat)
      reads ls
    {
      forall k :: 0 <= k < |ls| && k != index ==> LabelKept(ls[k])
    }

    /** The session a screen visit starts with: no labels, the trash can
        centred 62 points above the bottom edge, nothing measured or dragged,
        the text tool closed. */
    constructor (screenWidth: real, screenHeight: real, statusBarHeight: real)
      ensures Valid()
      ensures this.screenWidth == screenWidth && this.screenHeight == screenHeight
      ensures this.statusBarHeight == statusBarHeight
      ensures trashCanX == (screenWidth - 44.0) / 2.0 && trashCanY == screenHeight - 62.0
      ensures texts == [] && labels == []
      ensures textWidth == 0.0 && textHeight == 0.0
      ensures !zoomTrashCan && labelContainerY == 0.0 && labelWrapperY == 0.0
      ensures !draggingLabel && draft == FreshDraft && !textVisible
    {
      this.screenWidth := screenWidth;
      this.screenHeight := screenHeight;
      this.statusBarHeight := statusBarHeight;
      trashCanX := (screenWidth - 44.0) / 2.0;
      trashCanY := screenHeight - 62.0;
      texts := [];
      labels := [];
      textWidth := 0.0;
      textHeight := 0.0;
      zoomTrashCan := false;
      labelContainerY := 0.0;
      labelWrapperY := 0.0;
      draggingLabel := false;
      draft := FreshDraft;
      textVisible := false;
    }

    // ----- text tool -----

    /** Resets the draft to empty white centred text with no background. */
    method RefreshTextState()
      modifies this
      ensures draft == FreshDraft
      ensures textVisible == old(textVisible) && textWidth == old(textWidth) && textHeight == old(textHeight)
      ensures LabelsKept() && PanelKept()
    {
      draft := draft.(text := "");
      draft := draft.(align := Center);
      draft := draft.(background := false);
      draft := draft.(color := "#fff");
    }

    /** Opens the text tool on a fresh draft. */
    method OnText()
      modifies this
      ensures draft == FreshDraft && textVisible
      ensures textWidth == old(textWidth) && textHeight == old(textHeight)
      ensures LabelsKept() && PanelKept()
    {
      RefreshTextState();
      textVisible := true;
    }

    /** The alignment button: moves the draft to the next alignment of the
        center, flex-start, flex-end cycle. */
    method OnChangeTextAlign()
      modifies this
      ensures draft == old(draft).(align := NextAlign(old(draft).align))
      ensures textVisible == old(textVisible) && textWidth == old(textWidth) && textHeight == old(textHeight)
      ensures LabelsKept() && PanelKept()
    {
      draft := draft.(align := NextAlign(draft.align));
    }

    /** Typing in the text input replaces the draft text. */
    method OnChangeText(s: string)
      modifies this
      ensures draft == old(draft).(text := s)
      ensures textVisible == old(textVisible) && textWidth == old(textWidth) && textHeight == old(textHeight)
      ensures LabelsKept() && PanelKept()
    {
      draft := draft.(text := s);
    }

    /** The background button flips the draft's background flag. */
    method ToggleTextBackground()
      modifies this
      ensures draft == old(draft).(background := !old(draft).background)
      ensures textVisible == old(textVisible) && textWidth == old(textWidth) && textHeight == old(textHeight)
      ensures LabelsKept() && PanelKept()
    {
      draft := draft.(background := !draft.background);
    }

    /** Picking a colour from the palette sets the draft's colour. */
    method SelectTextColor(c: string)
      modifies this
      ensures draft == old(draft).(color := c)
      ensures textVisible == old(textVisible) && textWidth == old(textWidth) && textHeight == old(textHeight)
      ensures LabelsKept() && PanelKept()
    {
      draft := draft.(color := c);
    }

    /** The text input reports the measured size of the draft text. */
    method OnContentSizeChange(width: real, height: real)
      modifies this
      ensures textWidth == width && textHeight == height
      ensures draft == old(draft) && textVisible == old(textVisible)
      ensures LabelsKept() && PanelKept()
    {
      textHeight := height;
      textWidth := width;
    }

    /** The close button hides the text tool without creating a label. */
    method CloseTextTool()
      modifies this
      ensures !textVisible
      ensures draft == old(draft) && textWidth == old(textWidth) && textHeight == old(textHeight)
      ensures LabelsKept() && PanelKept()
    {
      textVisible := false;
    }

    /** The keyboard reporting that it is closed hides the text tool too;
        its opening changes nothing. */
    method OnKeyboardStatus(isOpen: bool)
      modifies this
      ensures textVisible == (old(textVisible) && isOpen)
      ensures draft == old(draft) && textWidth == old(textWidth) && textHeight == old(textHeight)
      ensures LabelsKept() && PanelKept()
    {
      if !isOpen {
        textVisible := false;
      }
    }

    /** Done: with a non-empty draft, appends a new label built from the
        draft and the measured text size and closes the text tool; with an
        empty draft, does nothing at all, the tool staying open. */
    method OnDoneText()
      requires Valid()
      modifies this
      ensures Valid()
      ensures old(draft.text) == [] ==> texts == old(texts) && textVisible == old(textVisible)
      ensures old(draft.text) != [] ==>
        && |texts| == |old(texts)| + 1
        && texts[..|old(texts)|] == old(texts)
        && fresh(texts[|old(texts)|])
        && !textVisible
      ensures old(draft.text) != [] ==>
        var l := texts[|old(texts)|];
        && l.zIndex == NextZIndex(ZIndices(old(texts)) + ZIndices(labels))
        && l.text == draft.text && l.color == draft.color
        && l.textAlign == draft.align && l.textBg == draft.background
        && l.fontSize == LabelFontSize
        && l.x == OffsetX(draft.align, screenWidth, textWidth)
        && l.y == (screenHeight - textHeight) / 2.0
        && l.width == textWidth && l.height == textHeight
        && l.ratio == 1.0
        && l.animX == l.x && l.animY == l.y && l.animRatio == l.ratio
      ensures draft == old(draft) && textWidth == old(textWidth) && textHeight == old(textHeight)
      ensures zoomTrashCan == old(zoomTrashCan) && draggingLabel == old(draggingLabel)
      ensures PanelKept()
    {
      if |draft.text| > 0 {
        var offsetX := OffsetX(draft.align, screenWidth, textWidth);
        var zIndex := NextZIndex(ZIndices(texts) + ZIndices(labels));
        var y := (screenHeight - textHeight) / 2.0;
        var storyText := new Label(zIndex, draft, offsetX, y, textWidth, textHeight);
        AppendNextKeepsIncreasing(ZIndices(texts), ZIndices(labels));
        ZIndicesAppend(texts, storyText);
        texts := texts + [storyText];
        textVisible := false;
      }
    }

    // ----- options panel -----

    /** A pan frame on the options panel: sets the animated offset to the
        committed offset plus the translation, unless that leaves the
        allowed range. */
    method OnLabelOptionsContainerTranslate(translationY: real)
      modifies this
      ensures labelWrapperY == PanelLive(old(labelWrapperY), labelContainerY, translationY, screenHeight, statusBarHeight)
      ensures labelContainerY == old(labelContainerY)
      ensures LabelsKept() && ToolKept()
    {
      if !PanelInBounds(labelContainerY + translationY, screenHeight, statusBarHeight) {
        return;
      }
      labelWrapperY := labelContainerY + translationY;
    }

    /** A state change of the options-panel pan: on END the translation is
        committed, unclamped; any other state changes nothing. */
    method OnLabelOptionsContainerTranslateStateChange(translationY: real, state: GestureState)
      modifies this
      ensures labelContainerY == if state == End then PanelCommit(old(labelContainerY), translationY) else old(labelContainerY)
      ensures labelWrapperY == old(labelWrapperY)
      ensures LabelsKept() && ToolKept()
    {
      if state == End {
        labelContainerY := PanelCommit(labelContainerY, translationY);
      }
    }

    // ----- dragging a label -----

    /** A drag frame on the label at `index` with cumulative translation
        (`translationX`, `translationY`): marks a drag in progress, draws the
        label at its committed position plus the translation, scaled by its
        committed scale, and reports which trash-can animation to start. The
        committed position and scale, and the label list, are left alone. */
    method OnTextLabelTranslate(index: nat, translationX: real, translationY: real) returns (anim: TrashAnim)
      requires Valid() && index < |texts|
      modifies this, texts[index]
      ensures Valid() && OthersKept(old(texts), index)
      ensures draggingLabel
      ensures texts == old(texts) && zoomTrashCan == old(zoomTrashCan)
      ensures var l := texts[index];
        && l.x == old(l.x) && l.y == old(l.y) && l.ratio == old(l.ratio)
        && l.animRatio == old(l.animRatio)
        && l.animX == (l.x + translationX) * l.ratio
        && l.animY == (l.y + translationY) * l.ratio
      ensures anim == TrashDecision(
        NearTrash(texts[index].y + translationY, texts[index].height, texts[index].ratio, trashCanY),
        zoomTrashCan)
      ensures PanelKept() && ToolKept()
    {
      if !draggingLabel {
        draggingLabel := true;
      }
      DistinctLabels(texts, index);
      var target := texts[index];
      anim := TrashDecision(NearTrash(target.y + translationY, target.height, target.ratio, trashCanY), zoomTrashCan);
      target.animX := (target.x + translationX) * target.ratio;
      target.animY := (target.y + translationY) * target.ratio;
    }

    /** Completion of a trash-can animation started by a drag frame. */
    method OnTrashAnimationDone(anim: TrashAnim)
      modifies this
      ensures zoomTrashCan == ZoomAfter(old(zoomTrashCan), anim)
      ensures texts == old(texts) && draggingLabel == old(draggingLabel)
      ensures PanelKept() && ToolKept()
    {
      match anim
      case Grow => zoomTrashCan := true;
      case Shrink => zoomTrashCan := false;
      case NoAnim =>
    }

    /** A state change of the drag on the label at `index`: always ends the
        drag mode; on END commits the translation into the label's position
        exactly once, removes the label if its committed bottom edge is over
        the trash can (the labels after it moving down one place), and
        resets the trash-can flag. Any other state changes nothing else. */
    method OnTextLabelTranslateChangeState(index: nat, translationX: real, translationY: real, state: GestureState)
      requires state == End ==> index < |texts|
      requires Valid()
      modifies this, if index < |texts| then {texts[index]} else {}
      ensures Valid()
      ensures OthersKept(old(texts), index)
      ensures !draggingLabel
      ensures state != End ==> texts == old(texts) && zoomTrashCan == old(zoomTrashCan)
      ensures state != End && index < |old(texts)| ==> LabelKept(old(texts)[index])
      ensures state == End ==>
        var l := old(texts)[index];
        && l.x == old(l.x) + translationX && l.y == old(l.y) + translationY
        && l.ratio == old(l.ratio)
        && l.animX == old(l.animX) && l.animY == old(l.animY) && l.animRatio == old(l.animRatio)
        && texts == (if NearTrash(l.y, l.height, l.ratio, trashCanY) then RemoveAt(old(texts), index) else old(texts))
        && !zoomTrashCan
      ensures PanelKept() && ToolKept()
    {
      draggingLabel := false;
      if state == End {
        DistinctLabels(texts, index);
        var target := texts[index];
        target.x := target.x + translationX;
        target.y := target.y + translationY;
        if NearTrash(target.y, target.height, target.ratio, trashCanY) {
          ZIndicesRemoveAt(texts, index);
          RemoveKeepsIncreasing(ZIndices(texts), index);
          texts := texts[..index] + texts[index + 1..];
        }
        zoomTrashCan := false;
      }
    }

    // ----- pinching a label -----

    /** A pinch frame on the label at `index` with cumulative factor
        `scale`: draws the label at its committed scale times the factor,
        without committing anything. */
    method OnTextLabelZoom(index: nat, scale: real)
      requires Valid() && index < |texts|
      modifies texts[index]
      ensures OthersKept(old(texts), index)
      ensures var l := texts[index];
        && l.animRatio == l.ratio * scale
        && l.ratio == old(l.ratio) && l.x == old(l.x) && l.y == old(l.y)
        && l.animX == old(l.animX) && l.animY == old(l.animY)
    {
      DistinctLabels(texts, index);
      var target := texts[index];
      target.animRatio := target.ratio * scale;
    }

    /** A state change of the pinch on the label at `index`: on END the
        factor is multiplied into the committed scale; any other state
        changes nothing. */
    method OnTextLabelZoomChangeState(index: nat, scale: real, state: GestureState)
      requires state == End ==> index < |texts|
      requires Valid()
      modifies if index < |texts| then {texts[index]} else {}
      ensures state == End ==>
        var l := texts[index];
        && l.ratio == old(l.ratio) * scale
        && l.x == old(l.x) && l.y == old(l.y)
        && l.animX == old(l.animX) && l.animY == old(l.animY) && l.animRatio == old(l.animRatio)
      ensures state != End && index < |texts| ==> LabelKept(texts[index])
      ensures OthersKept(old(texts), index)
    {
      if state == End {
        DistinctLabels(texts, index);
        var target := texts[index];
        target.ratio := target.ratio * scale;
      }
    }
  }

  /** The user opens the text tool, types `t` and presses Done: one label
      is added on top of the others. */
  method AddLabel(s: Session, t: string)
    requires s.Valid() && t != []
    modifies s
    ensures s.Valid()
    ensures ZIndices(s.texts) == ZIndices(old(s.texts)) + [NextZIndex(ZIndices(old(s.texts)) + ZIndices(s.labels))]
  {
    s.OnText();
    s.OnChangeText(t);
    s.OnDoneText();
    ZIndicesAppend(old(s.texts), s.texts[|old(s.texts)|]);
    assert s.texts == old(s.texts) + [s.texts[|old(s.texts)|]];
  }

  /** A fresh session in which `n` labels are created one after another,
      none deleted: their z-indices are 1..n in creation order. */
  method CreateLabels(n: nat, screenWidth: real, screenHeight: real, statusBarHeight: real) returns (s: Session)
    ensures s.Valid() && |s.texts| == n
    ensures ZIndices(s.texts) == Created(n)
    ensures forall i :: 0 <= i < n ==> s.texts[i].zIndex == i + 1
  {
    s := new Session(screenWidth, screenHeight, statusBarHeight);
    var i := 0;
    while i < n
      invariant 0 <= i <= n
      invariant s.Valid() && s.labels == []
      invariant ZIndices(s.texts) == Created(i)
    {
      ghost var before := ZIndices(s.texts);
      assert before + ZIndices(s.labels) == Created(i);
      AddLabel(s, "a");
      assert ZIndices(s.texts) == Created(i) + [NextZIndex(Created(i))];
      i := i + 1;
    }
    CreationsNumberedInOrder(n);
  }

  /** One drag of the label at `index`, one frame and then END, dropped
      clear of the trash can: the translation is committed and the label
      stays at its place in the list. */
  method DropClear(s: Session, index: nat, tx: real, ty: real)
    requires s.Valid() && index < |s.texts|
    requires !NearTrash(s.texts[index].y + ty, s.texts[index].height, s.texts[index].ratio, s.trashCanY)
    modifies s, s.texts[index]
    ensures s.Valid() && s.texts == old(s.texts)
    ensures s.texts[index].x == old(s.texts[index].x) + tx
    ensures s.texts[index].y == old(s.texts[index].y) + ty
    ensures s.texts[index].ratio == old(s.texts[index].ratio)
  {
    var _ := s.OnTextLabelTranslate(index, tx, ty);
    s.OnTextLabelTranslateChangeState(index, tx, ty, End);
  }

  /** A label dragged away from the trash can and then back, both drops
      clear of it, ends up moved by the sum of the two translations and is
      still on the canvas at the same place in the list. */
  method DragAwayAndBack(s: Session, index: nat, t1x: real, t1y: real, t2x: real, t2y: real)
    requires s.Valid() && index < |s.texts|
    requires !NearTrash(s.texts[index].y + t1y, s.texts[index].height, s.texts[index].ratio, s.trashCanY)
    requires !NearTrash(s.texts[index].y + t1y + t2y, s.texts[index].height, s.texts[index].ratio, s.trashCanY)
    modifies s, s.texts[index]
    ensures s.Valid() && s.texts == old(s.texts)
    ensures s.texts[index].x == old(s.texts[index].x) + t1x + t2x
    ensures s.texts[index].y == old(s.texts[index].y) + t1y + t2y
    ensures s.texts[index].ratio == old(s.texts[index].ratio)
  {
    DropClear(s, index, t1x, t1y);
    DropClear(s, index, t2x, t2y);
  }
}
