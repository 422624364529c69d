# Story canvas label engine, modelled in Dafny

This project models the label-editing engine of the story canvas screen of
rnStory (`src/screens/StoryCanvas.jsx`). After a photo or video is captured,
the user places text labels on it. A label is created from the text tool's
draft. It can be dragged and pinched, and it is deleted when it is dropped on
the trash can. A separate pan gesture on the whole screen moves an animated
offset meant for an options panel.

The model has three modules:

- `Placement` (`placement.dfy`) holds the pure creation rules: the
  center → flex-start → flex-end alignment toggle, the horizontal placement of
  a new label, the z-index allocation (`Math.max` over the existing z-indices,
  with the `-Infinity` of an empty list replaced by 0) and the
  `splice(index, 1)` that removes a label.
- `Proximity` (`proximity.dfy`) holds the pure rules of the drag-to-trash
  affordance and of the options panel: the trash test
  `|(y + height) * ratio - trashCanY| < 50`, the grow/shrink decision for the
  trash-can indicator, and the range the options-panel pan handler keeps its
  animated offset in.
- `Canvas` (`canvas.dfy`) holds the mutable state. The screen keeps its
  session in a mutable record and in screen state values, and changes them in
  place. The model does the same: class `Session` holds the label list
  `texts`, the draft, the measured text size, the `zoomTrashCan` flag, the
  panel offsets and the `draggingLabel` and `textVisible` flags. Class `Label`
  holds one label record. Its `x`, `y` and `ratio` are the committed position
  and scale. Its `animX`, `animY` and `animRatio` are the animated values it
  is drawn with. Each event handler of the screen is a method. The method
  states the new state in terms of the old one, and it preserves the
  invariant that z-indices increase strictly along `texts`.

Coordinates and scales are exact `real`s. The window size and the status-bar
height are constructor parameters. The measured size of the draft text enters
through `OnContentSizeChange`. Labels are addressed by position in `texts`,
as in the source. The source never checks the index, so every handler that
reads `texts[index]` requires `index < |texts|`. The drag and pinch
state-change handlers read the label only on END, so only END needs that.

## Behaviour of the code worth knowing

- A drag frame draws the label at `(x + tx) * ratio`, `(y + ty) * ratio`, so
  the committed scale multiplies the position as well as the translation.
- Neither END handler resets the animated values. `animX`/`animY` keep the
  last drag frame's values, and `animRatio` keeps the last pinch frame's value.
- The trash test multiplies the whole bottom coordinate `y + height` by the
  scale, not only the height (`Proximity.ScalesWholeBottomCoordinate`).
- Done with an empty draft does nothing at all. The text tool stays open,
  because `setTextVisible(false)` is inside the non-empty branch.
- The pan handler moves the animated offset only within
  `[-(screenHeight - statusBarHeight - 50), 0]`, but the committed offset is
  not clamped (`Proximity.PanelCommitUnclamped`).
- No view of the screen reads the animated offset that the options-panel pan
  handler sets (`labelWrapperY` in the model), so that gesture moves nothing
  on screen.
- A CANCELLED or FAILED gesture commits nothing and reverts nothing. Only the
  drag's `draggingLabel` flag is cleared.

## Model

| member | source | states |
|---|---|---|
| Placement.NextAlign | src/screens/StoryCanvas.jsx:97-105 | the toggle always moves to a different alignment |
| Placement.ThreeTogglesIdentity | src/screens/StoryCanvas.jsx:97-105 | three presses of the alignment toggle return to the start; one or two do not |
| Placement.TogglePeriod | src/screens/StoryCanvas.jsx:97-105 | after n presses, the alignment depends only on n mod 3 |
| Placement.OffsetX | src/screens/StoryCanvas.jsx:108-113 | a centred label has equal free space on its left and right; a flex-start label is 15 from the left edge; a flex-end label is 15 from the right edge |
| Placement.MaxZ | src/screens/StoryCanvas.jsx:114-118 | Math.max of the z-index list is absent (-Infinity) exactly when the list is empty; otherwise it is an element of the list and no element exceeds it |
| Placement.NextZIndex | src/screens/StoryCanvas.jsx:118-121 | the allocated z-index is above every existing one; NextZIndexOnTop proves it is 1 on an empty canvas and otherwise exactly one above an existing z-index |
| Placement.NextZIndexOnTop | src/screens/StoryCanvas.jsx:114-121 | the new z-index is 1 when there are no labels; it is above every existing z-index; otherwise it is one more than an existing z-index |
| Placement.NextAfterConsecutive | src/screens/StoryCanvas.jsx:114-121 | when the labels are numbered 1..n, the next one gets n + 1 |
| Placement.CreationsNumberedInOrder | src/screens/StoryCanvas.jsx:114-136 | n creations with no deletions give z-indices 1..n in creation order |
| Placement.AppendNextKeepsIncreasing | src/screens/StoryCanvas.jsx:114-136 | appending the newly allocated z-index keeps the z-indices strictly increasing |
| Placement.RemoveAt | src/screens/StoryCanvas.jsx:204 | splice(index, 1) removes one element; earlier elements keep their positions; later ones move down one place |
| Placement.RemoveKeepsIncreasing | src/screens/StoryCanvas.jsx:204 | removing a label keeps the remaining z-indices strictly increasing |
| Proximity.NearTrash | src/screens/StoryCanvas.jsx:199-203 | a label counts as over the trash can only when its scaled bottom coordinate is within 50 of trashCanY; NearTrashBand proves the converse too |
| Proximity.NearTrashBand | src/screens/StoryCanvas.jsx:199-203 | a label is over the trash can exactly when its scaled bottom coordinate lies strictly within 50 of trashCanY |
| Proximity.ScalesWholeBottomCoordinate | src/screens/StoryCanvas.jsx:166-170 | the test scales y + height as a whole: a label can be over the trash can while y + height * ratio is 100 away |
| Proximity.TrashDecision | src/screens/StoryCanvas.jsx:166-185 | grow starts exactly when the label is near and the indicator is not zoomed; shrink starts exactly when the label is away and the indicator is zoomed |
| Proximity.ZoomAfter | src/screens/StoryCanvas.jsx:173-183 | a completed grow leaves the indicator zoomed, a completed shrink leaves it unzoomed, and no animation leaves the flag alone; DecisionSettles proves the flag then equals the proximity |
| Proximity.DecisionSettles | src/screens/StoryCanvas.jsx:172-183 | once the started animation completes, zoomTrashCan equals the proximity, and another frame at the same proximity starts nothing |
| Proximity.FramesFireOnTransitions | src/screens/StoryCanvas.jsx:166-185 | if each animation completes before the next frame, grow fires exactly on frames that enter the band and shrink exactly on frames that leave it |
| Proximity.PanelInBounds | src/screens/StoryCanvas.jsx:148-151 | an offset in the range is never below the resting place and leaves at least 50 of the screen below the status bar; PanelLiveStaysInBounds proves the pan handler keeps an in-range offset in range |
| Proximity.PanelLive | src/screens/StoryCanvas.jsx:147-156 | the animated offset becomes containerY + ty when that is inside the range; otherwise the frame is ignored |
| Proximity.PanelLiveStaysInBounds | src/screens/StoryCanvas.jsx:147-156 | an animated offset inside the range stays inside it |
| Proximity.PanelCommit | src/screens/StoryCanvas.jsx:144 | the commit adds exactly the translation; PanelCommitUnclamped proves the result can leave the range the pan handler keeps to |
| Proximity.PanelCommitUnclamped | src/screens/StoryCanvas.jsx:140-146 | the committed offset can leave the range that the live handler keeps to |
| Canvas.Label.constructor | src/screens/StoryCanvas.jsx:120-135 | a new label takes the draft's text, colour, alignment and background, has font size 40 and scale 1, and is drawn where it is committed |
| Canvas.Session.constructor | src/screens/StoryCanvas.jsx:42-59 | the session starts with no labels, the trash can at ((W - 44)/2, H - 62), nothing measured, flags cleared and a fresh draft |
| Canvas.Session.RefreshTextState | src/screens/StoryCanvas.jsx:90-95 | the draft becomes empty, centred, white (#fff) and without background; nothing else changes |
| Canvas.Session.OnText | src/screens/StoryCanvas.jsx:85-88 | opening the text tool resets the draft and makes the tool visible |
| Canvas.Session.OnChangeTextAlign | src/screens/StoryCanvas.jsx:97-105 | only the draft's alignment changes, to the next one in the cycle |
| Canvas.Session.OnChangeText | src/screens/StoryCanvas.jsx:335-336 | typing replaces the draft text and nothing else |
| Canvas.Session.ToggleTextBackground | src/screens/StoryCanvas.jsx:286 | the draft's background flag flips |
| Canvas.Session.SelectTextColor | src/screens/StoryCanvas.jsx:382 | the draft's colour becomes the picked one |
| Canvas.Session.OnContentSizeChange | src/screens/StoryCanvas.jsx:328-331 | the measured width and height are recorded |
| Canvas.Session.CloseTextTool | src/screens/StoryCanvas.jsx:254 | the close button hides the text tool and creates no label |
| Canvas.Session.OnKeyboardStatus | src/screens/StoryCanvas.jsx:61-65 | a closed keyboard hides the text tool; an open one changes nothing |
| Canvas.Session.OnDoneText | src/screens/StoryCanvas.jsx:106-139 | an empty draft changes nothing, not even the tool's visibility; a non-empty one appends exactly one fresh label with the allocated z-index, the placement for its alignment, y = (H - textHeight)/2, the measured size, scale 1 and drawn values equal to the committed ones; earlier labels are untouched, the tool closes and z-order stays strictly increasing |
| Canvas.Session.OnLabelOptionsContainerTranslate | src/screens/StoryCanvas.jsx:147-156 | a pan frame sets the animated offset as PanelLive says; the committed offset is unchanged |
| Canvas.Session.OnLabelOptionsContainerTranslateStateChange | src/screens/StoryCanvas.jsx:140-146 | only END changes the committed offset, adding the translation with no clamping |
| Canvas.Session.OnTextLabelTranslate | src/screens/StoryCanvas.jsx:157-188 | a drag frame sets draggingLabel, draws the label at ((x + tx) * ratio, (y + ty) * ratio), leaves x, y, ratio, texts, zoomTrashCan and every other label unchanged, and reports TrashDecision for the would-be position |
| Canvas.Session.OnTrashAnimationDone | src/screens/StoryCanvas.jsx:173-183 | a completed grow sets zoomTrashCan; a completed shrink clears it |
| Canvas.Session.OnTextLabelTranslateChangeState | src/screens/StoryCanvas.jsx:190-208 | every state change clears draggingLabel; only END adds the translation to x and y once, removes the label exactly when its committed bottom edge is over the trash can (the others keep their order), and clears zoomTrashCan; other states leave texts and the label untouched; no other label changes in any case |
| Canvas.Session.OnTextLabelZoom | src/screens/StoryCanvas.jsx:211-214 | a pinch frame draws the label at ratio * scale, commits nothing and changes no other label |
| Canvas.Session.OnTextLabelZoomChangeState | src/screens/StoryCanvas.jsx:216-224 | only END multiplies the committed scale by the factor; other states change nothing; no other label changes |
| Canvas.AddLabel | src/screens/StoryCanvas.jsx:85-139 | opening the text tool, typing a non-empty text and pressing Done appends the z-index allocated over texts and labels |
| Canvas.CreateLabels | src/screens/StoryCanvas.jsx:114-136 | in a fresh session, n creations with no deletions give the labels z-indices 1..n in creation order |
| Canvas.DropClear | src/screens/StoryCanvas.jsx:157-208 | a drag dropped clear of the trash can commits its translation and keeps the label in place in the list |
| Canvas.DragAwayAndBack | src/screens/StoryCanvas.jsx:190-208 | two drops clear of the trash can move a label by the sum of both translations and keep it in place in the list |

## Left out

- Saving the media (`saveMedia`): a filesystem copy through a native library, with a platform-dependent path.
- The trash-can spring animations themselves. Their completion callbacks run asynchronously. The model has the synchronous grow/shrink/none decision (`OnTextLabelTranslate` returns it) and treats a completion as a separate event (`OnTrashAnimationDone`). It makes no claim about when completions arrive relative to drag frames. `Proximity.FramesFireOnTransitions` assumes that each animation completes before the next frame.
- Text measurement: the native layout that produces the width and height is an input (`OnContentSizeChange`).
- Rendering, styles, the colour palette, the colour-panel visibility toggle and navigation. The media record's uri, size, translation and rotation fields are never read by the engine.
- The camera screen, the keyboard-status hook and the navigation shell.
- Floating-point rounding: coordinates and scales are exact reals.
- The re-rendering that React does after a state change, and the stale handler indices it can leave behind after a splice.
