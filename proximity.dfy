/** Pure rules of the drag-to-trash affordance and of the options-panel
    pan: the proximity test against the trash can, the grow/shrink decision
    for the trash-can animation, and the bounds of the panel's animated offset. */
module Proximity {

  /** Distance in points within which a label's bottom edge counts as over
      the trash can. */
  const TrashThreshold: real := 50.0

  function Abs(r: real): real
  {
    if r < 0.0 then -r else r
  }

  /** The trash test as the code writes it: the whole bottom-edge coordinate
      `y + height` is multiplied by the label's scale before it is compared
      with the trash can's vertical position. */
  predicate NearTrash(y: real, height: real, ratio: real, trashCanY: real): (near: bool)
    ensures near ==> (y + height) * ratio < trashCanY + TrashThreshold
    ensures near ==> trashCanY - TrashThreshold < (y + height) * ratio
  {
    Abs((y + height) * ratio - trashCanY) < TrashThreshold
  }

  /** The test is an open band of half-width 50 around the trash can. */
  lemma NearTrashBand(y: real, height: real, ratio: real, trashCanY: real)
    ensures NearTrash(y, height, ratio, trashCanY) <==>
      trashCanY - TrashThreshold < (y + height) * ratio < trashCanY + TrashThreshold
  {
  }

  /** The test scales the top coordinate too, so it differs from comparing
      `y + height * ratio`: a label at y = 100, 50 high, at scale 2 has its
      scaled bottom coordinate 300 over a trash can at 300 but `y + height * ratio`
      is 200. */
  lemma ScalesWholeBottomCoordinate()
    ensures NearTrash(100.0, 50.0, 2.0, 300.0)
    ensures Abs(100.0 + 50.0 * 2.0 - 300.0) >= TrashThreshold
  {
  }

  /** What the drag handler starts on the trash-can indicator. */
  datatype TrashAnim = Grow | Shrink | NoAnim

  /** Grow (to 1.5) when the label is near and the indicator is not zoomed,
      shrink (to 1) when it is away and the indicator is zoomed, nothing
      otherwise. */
  function TrashDecision(near: bool, zoomed: bool): (r: TrashAnim)
    ensures r == Grow <==> near && !zoomed
    ensures r == Shrink <==> !near && zoomed
  {
    if near then (if !zoomed then Grow else NoAnim)
    else (if zoomed then Shrink else NoAnim)
  }

  /** The `zoomTrashCan` flag once the started animation has completed:
      its completion callback sets the flag to true after a grow and to
      false after a shrink. */
  function ZoomAfter(zoomed: bool, anim: TrashAnim): (r: bool)
    ensures anim == NoAnim ==> r == zoomed
    ensures anim != NoAnim ==> r == (anim == Grow)
  {
    match anim
    case Grow => true
    case Shrink => false
    case NoAnim => zoomed
  }

  /** Once the animation the decision started has completed, the flag
      matches the proximity, and another frame at the same proximity starts
      nothing. */
  lemma DecisionSettles(near: bool, zoomed: bool)
    ensures ZoomAfter(zoomed, TrashDecision(near, zoomed)) == near
    ensures TrashDecision(near, ZoomAfter(zoomed, TrashDecision(near, zoomed))) == NoAnim
  {
  }

  /** The animations started over a run of drag frames whose proximity
      readings are `nears`, when each animation completes before the next
      frame arrives. */
  function Frames(nears: seq<bool>, zoomed: bool): (r: seq<TrashAnim>)
    ensures |r| == |nears|
  {
    if nears == [] then []
    else
      var a := TrashDecision(nears[0], zoomed);
      [a] + Frames(nears[1..], ZoomAfter(zoomed, a))
  }

  /** Under that timing, the grow animation starts exactly on the frames
      where the label enters the band and the shrink animation exactly on the
      frames where it leaves it. */
  lemma {:induction false} FramesFireOnTransitions(nears: seq<bool>, zoomed: bool, i: nat)
    requires i < |nears|
    ensures Frames(nears, zoomed)[i] == Grow <==>
      nears[i] && !(if i == 0 then zoomed else nears[i - 1])
    ensures Frames(nears, zoomed)[i] == Shrink <==>
      !nears[i] && (if i == 0 then zoomed else nears[i - 1])
  {
    DecisionSettles(nears[0], zoomed);
    if i > 0 {
      FramesFireOnTransitions(nears[1..], ZoomAfter(zoomed, TrashDecision(nears[0], zoomed)), i - 1);
      assert nears[1..][i - 1] == nears[i];
      if i > 1 {
        assert nears[1..][i - 2] == nears[i - 1];
      }
    }
  }

  /** Space kept free below the top of the options panel's travel. */
  const PanelSlack: real := 50.0

  /** The range `[-(screenHeight - statusBarHeight - 50), 0]` that the pan
      handler keeps the options panel's animated offset in: never below its
      resting place, and never so high that less than 50 points of the
      screen below the status bar remain. */
  predicate PanelInBounds(v: real, screenHeight: real, statusBarHeight: real): (inside: bool)
    ensures inside ==> v <= 0.0
    ensures inside ==> screenHeight - statusBarHeight + v >= PanelSlack
  {
    -(screenHeight - statusBarHeight - PanelSlack) <= v <= 0.0
  }

  /** The options panel's animated offset after a pan frame with cumulative
      translation `ty`, from committed offset `containerY` and current
      animated offset `shown`: the frame is ignored when the sum leaves the
      range. */
  function PanelLive(shown: real, containerY: real, ty: real, screenHeight: real, statusBarHeight: real): (r: real)
    ensures PanelInBounds(containerY + ty, screenHeight, statusBarHeight) ==> r == containerY + ty
    ensures !PanelInBounds(containerY + ty, screenHeight, statusBarHeight) ==> r == shown
  {
    if PanelInBounds(containerY + ty, screenHeight, statusBarHeight) then containerY + ty
    else shown
  }

  /** An animated offset inside the range stays inside it, whatever the
      frame. */
  lemma PanelLiveStaysInBounds(shown: real, containerY: real, ty: real, screenHeight: real, statusBarHeight: real)
    requires PanelInBounds(shown, screenHeight, statusBarHeight)
    ensures PanelInBounds(PanelLive(shown, containerY, ty, screenHeight, statusBarHeight), screenHeight, statusBarHeight)
  {
  }

  /** The committed offset after a pan gesture ends: the translation is
      added with no clamping. */
  function PanelCommit(containerY: real, ty: real): (r: real)
    ensures r - containerY == ty
  {
    containerY + ty
  }

  /** The commit is not clamped: from the resting position a downward pan of
      100 commits an offset the pan handler would never set, and a later
      frame with no further movement is then ignored. */
  lemma PanelCommitUnclamped(screenHeight: real, statusBarHeight: real)
    ensures !PanelInBounds(PanelCommit(0.0, 100.0), screenHeight, statusBarHeight)
    ensures PanelLive(0.0, PanelCommit(0.0, 100.0), 0.0, screenHeight, statusBarHeight) == 0.0
  {
  }
}
