/** Pure rules of label creation on the story canvas: the three-way text
    alignment toggle, the horizontal placement of a new label, the
    stacking-order (z-index) allocation and the array splice that removes
    a label. */
module Placement {

  /** The `textAlign` values the text tool cycles through. */
  datatype Align = Center | FlexStart | FlexEnd

  /** The alignment toggle: center, then flex-start, then flex-end, then
      center again. */
  function NextAlign(a: Align): (r: Align)
    ensures r != a
  {
    match a
    case Center => FlexStart
    case FlexStart => FlexEnd
    case FlexEnd => Center
  }

  /** The alignment after `n` presses of the toggle. */
  function Toggled(a: Align, n: nat): Align
  {
    if n == 0 then a else NextAlign(Toggled(a, n - 1))
  }

  /** Three presses bring every alignment back to itself. */
  lemma ThreeTogglesIdentity(a: Align)
    ensures Toggled(a, 3) == a
    ensures Toggled(a, 1) != a && Toggled(a, 2) != a
  {
  }

  /** Only the number of presses modulo three matters. */
  lemma {:induction false} TogglePeriod(a: Align, n: nat)
    ensures Toggled(a, n) == Toggled(a, n % 3)
  {
    if n >= 3 {
      TogglesCompose(a, n - 3, 3);
      ThreeTogglesIdentity(Toggled(a, n - 3));
      TogglePeriod(a, n - 3);
    }
  }

  /** Pressing `m` times and then `k` times is pressing `m + k` times. */
  lemma {:induction false} TogglesCompose(a: Align, m: nat, k: nat)
    ensures Toggled(Toggled(a, m), k) == Toggled(a, m + k)
  {
    if k > 0 {
      TogglesCompose(a, m, k - 1);
    }
  }

  /** Margin kept between a start- or end-aligned label and the screen edge. */
  const EdgeMargin: real := 15.0

  /** Left edge of a new label of measured width `textWidth` on a screen
      `screenWidth` wide: centred labels get equal free space on both sides,
      start-aligned ones sit `EdgeMargin` from the left edge and end-aligned
      ones `EdgeMargin` from the right edge. */
  function OffsetX(a: Align, screenWidth: real, textWidth: real): (r: real)
    ensures a == Center ==> r == screenWidth - (r + textWidth)
    ensures a == FlexStart ==> r == EdgeMargin
    ensures a == FlexEnd ==> screenWidth - (r + textWidth) == EdgeMargin
  {
    match a
    case Center => (screenWidth - textWidth) / 2.0
    case FlexStart => 15.0
    case FlexEnd => screenWidth - textWidth - 15.0
  }

  datatype Option<T> = None | Some(value: T)

  /** `Math.max` over a list of z-indices: `None` stands for the `-Infinity`
      that `Math.max()` yields on an empty argument list. */
  function MaxZ(zs: seq<int>): (m: Option<int>)
    ensures m.None? <==> zs == []
    ensures m.Some? ==> m.value in zs
    ensures m.Some? ==> forall i :: 0 <= i < |zs| ==> zs[i] <= m.value
  {
    if zs == [] then None
    else
      match MaxZ(zs[1..])
      case None => Some(zs[0])
      case Some(rest) => Some(if zs[0] >= rest then zs[0] else rest)
  }

  /** The z-index given to a new label: one more than the largest existing
      z-index, where the `-Infinity` of an empty list is replaced by 0. */
  function NextZIndex(zs: seq<int>): (r: int)
    ensures forall i :: 0 <= i < |zs| ==> zs[i] < r
  {
    match MaxZ(zs)
    case None => 0 + 1
    case Some(m) => m + 1
  }

  /** The new z-index is 1 on an empty canvas, stacks strictly above every
      existing label, and is exactly one above some existing label
      otherwise. */
  lemma NextZIndexOnTop(zs: seq<int>)
    ensures zs == [] ==> NextZIndex(zs) == 1
    ensures forall i :: 0 <= i < |zs| ==> zs[i] < NextZIndex(zs)
    ensures zs != [] ==> NextZIndex(zs) - 1 in zs
  {
  }

  /** Labels numbered 1, 2, ..., n in order. */
  predicate Consecutive(zs: seq<int>)
  {
    forall i :: 0 <= i < |zs| ==> zs[i] == i + 1
  }

  /** On a canvas whose labels are numbered 1..n, the next label gets n + 1. */
  lemma NextAfterConsecutive(zs: seq<int>)
    requires Consecutive(zs)
    ensures NextZIndex(zs) == |zs| + 1
  {
    if zs != [] {
      assert zs[|zs| - 1] == |zs|;
      var m := MaxZ(zs).value;
      var j :| 0 <= j < |zs| && zs[j] == m;
    }
  }

  /** The z-indices after `n` label creations on an empty canvas, none
      deleted: each creation appends the allocated z-index. */
  function Created(n: nat): seq<int>
  {
    if n == 0 then [] else Created(n - 1) + [NextZIndex(Created(n - 1))]
  }

  /** `n` creations with no deletions give z-indices 1..n in creation order. */
  lemma {:induction false} CreationsNumberedInOrder(n: nat)
    ensures |Created(n)| == n
    ensures Consecutive(Created(n))
  {
    if n > 0 {
      CreationsNumberedInOrder(n - 1);
      NextAfterConsecutive(Created(n - 1));
    }
  }

  /** Every element strictly above the ones before it. */
  predicate StrictlyIncreasing(zs: seq<int>)
  {
    forall i, j :: 0 <= i < j < |zs| ==> zs[i] < zs[j]
  }

  /** `splice(index, 1)`: the element at `index` goes, those before it keep
      their positions and those after it move down by one. */
  function RemoveAt<T>(s: seq<T>, index: nat): (r: seq<T>)
    requires index < |s|
    ensures |r| == |s| - 1
    ensures forall k :: 0 <= k < index ==> r[k] == s[k]
    ensures forall k :: index <= k < |r| ==> r[k] == s[k + 1]
  {
    s[..index] + s[index + 1..]
  }

  /** Removing one label keeps the remaining stacking order strictly
      increasing. */
  lemma RemoveKeepsIncreasing(zs: seq<int>, index: nat)
    requires index < |zs|
    requires StrictlyIncreasing(zs)
    ensures StrictlyIncreasing(RemoveAt(zs, index))
  {
  }

  /** Appending a freshly allocated z-index keeps the order strictly
      increasing, whatever other labels were consulted. */
  lemma AppendNextKeepsIncreasing(zs: seq<int>, others: seq<int>)
    requires StrictlyIncreasing(zs)
    ensures StrictlyIncreasing(zs + [NextZIndex(zs + others)])
  {
    NextZIndexOnTop(zs + others);
    var r := zs + [NextZIndex(zs + others)];
    forall i, j | 0 <= i < j < |r| ensures r[i] < r[j] {
      assert r[i] == (zs + others)[i];
    }
  }
}
