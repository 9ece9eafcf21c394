/**
 * The multi-overlay editor: a body photo with an ordered list of tattoo
 * overlays, one optional selection, and one shared set of slider controls
 * that only the selected overlay displays.
 *
 * The list and selection bookkeeping lives in the class `Editor`; what each
 * overlay is rendered with, the minimum-size guard of the resize handles and
 * the removal of one entry are pure functions.
 */
module TattooOverlay {
  import opened Wrappers
  import opened Geometry

  // ---------------------------------------------------------------------
  // Controls

  /** The slider record. `scaleY` is a key the record may carry besides the
      three the sliders set; when it is absent the vertical scale is `scale`. */
  datatype Controls = Controls(scale: real, rotation: real, opacity: real, scaleY: Option<real>)

  datatype ControlKey = ScaleKey | RotationKey | OpacityKey | ScaleYKey

  const InitialControls: Controls := Controls(1.0, 0.0, 0.8, None)

  /** What every overlay other than the selected one is rendered with. */
  const NeutralControls: Controls := Controls(1.0, 0.0, 1.0, None)

  /** The value stored under one key of the record. */
  function Field(c: Controls, key: ControlKey): Option<real> {
    match key
    case ScaleKey => Some(c.scale)
    case RotationKey => Some(c.rotation)
    case OpacityKey => Some(c.opacity)
    case ScaleYKey => c.scaleY
  }

  /** `{ ...controls, [key]: value }`: the named key takes the new value and
      every other key keeps its old one. */
  function WithControl(c: Controls, key: ControlKey, value: real): (r: Controls)
    ensures Field(r, key) == Some(value)
    ensures forall k :: k != key ==> Field(r, k) == Field(c, k)
  {
    match key
    case ScaleKey => c.(scale := value)
    case RotationKey => c.(rotation := value)
    case OpacityKey => c.(opacity := value)
    case ScaleYKey => c.(scaleY := Some(value))
  }

  /** Setting a key twice keeps only the second value; setting two different
      keys gives the same record in either order. */
  lemma WithControlOverwrites(c: Controls, key: ControlKey, v: real, w: real)
    ensures WithControl(WithControl(c, key, v), key, w) == WithControl(c, key, w)
  {
  }

  lemma WithControlCommutes(c: Controls, k1: ControlKey, v1: real, k2: ControlKey, v2: real)
    requires k1 != k2
    ensures WithControl(WithControl(c, k1, v1), k2, v2) == WithControl(WithControl(c, k2, v2), k1, v1)
  {
  }

  /** The controls overlay `i` is rendered with: the shared record when it is
      the selected one, the neutral record otherwise. */
  function EffectiveControls(selected: Option<nat>, i: nat, shared: Controls): (c: Controls)
    ensures selected == Some(i) ==> c == shared
    ensures selected != Some(i) ==> c.scale == 1.0 && c.rotation == 0.0 && c.opacity == 1.0 && c.scaleY.None?
  {
    if selected == Some(i) then shared else NeutralControls
  }

  /** `scaleY || scale`: an absent or zero (falsy) `scaleY` falls back to
      `scale`. */
  function EffectiveScaleY(c: Controls): (r: real)
    ensures c.scaleY.None? ==> r == c.scale
    ensures c.scaleY == Some(0.0) ==> r == c.scale
    ensures c.scaleY.Some? && c.scaleY.value != 0.0 ==> r == c.scaleY.value
  {
    match c.scaleY
    case None => c.scale
    case Some(v) => if v != 0.0 then v else c.scale
  }

  /** The transform attributes given to one overlay's image node. */
  datatype ImageAttrs = ImageAttrs(scaleX: real, scaleY: real, rotation: real, opacity: real)

  function AttrsOf(c: Controls): (r: ImageAttrs)
    ensures r.scaleX == c.scale && r.scaleY == EffectiveScaleY(c)
    ensures r.rotation == c.rotation && r.opacity == c.opacity
    ensures c.scaleY.None? ==> r.scaleY == r.scaleX
  {
    ImageAttrs(c.scale, EffectiveScaleY(c), c.rotation, c.opacity)
  }

  // ---------------------------------------------------------------------
  // Rendering the list

  /** What the list hands to one overlay component. */
  datatype OverlayProps = OverlayProps(src: string, isSelected: bool, controls: Controls)

  /** The overlay list as rendered: one entry per tattoo, in order. */
  function Render(tattoos: seq<string>, selected: Option<nat>, shared: Controls): (r: seq<OverlayProps>)
    ensures |r| == |tattoos|
    ensures forall i :: 0 <= i < |r| ==> r[i].src == tattoos[i]
    ensures forall i :: 0 <= i < |r| ==> r[i].isSelected == (selected == Some(i))
    ensures forall i :: 0 <= i < |r| ==> r[i].controls == EffectiveControls(selected, i, shared)
  {
    seq(|tattoos|, i requires 0 <= i < |tattoos| =>
      OverlayProps(tattoos[i], selected == Some(i), EffectiveControls(selected, i, shared)))
  }

  /** How many overlays carry a transform handle (one per selected overlay). */
  function CountTransformers(props: seq<OverlayProps>): (n: nat)
    ensures n <= |props|
    ensures n == 0 <==> forall i :: 0 <= i < |props| ==> !props[i].isSelected
    decreases |props|
  {
    if props == [] then 0
    else (if props[0].isSelected then 1 else 0) + CountTransformers(props[1..])
  }

  lemma {:induction false} CountSingleSelection(props: seq<OverlayProps>, k: int)
    requires forall i :: 0 <= i < |props| ==> (props[i].isSelected <==> i == k)
    ensures CountTransformers(props) == if 0 <= k < |props| then 1 else 0
    decreases |props|
  {
    if props != [] {
      var rest := props[1..];
      forall i | 0 <= i < |rest| ensures rest[i].isSelected <==> i == k - 1 {
        assert rest[i] == props[i + 1];
      }
      CountSingleSelection(rest, k - 1);
    }
  }

  /** At most one overlay carries the transform handle: exactly one when the
      selection names an overlay in the list, none otherwise. */
  lemma AtMostOneTransformer(tattoos: seq<string>, selected: Option<nat>, shared: Controls)
    ensures CountTransformers(Render(tattoos, selected, shared)) <= 1
    ensures CountTransformers(Render(tattoos, selected, shared)) == 1
            <==> selected.Some? && selected.value < |tattoos|
  {
    var props := Render(tattoos, selected, shared);
    var k: int := if selected.Some? then selected.value else -1;
    forall i | 0 <= i < |props| ensures props[i].isSelected <==> i == k {
    }
    CountSingleSelection(props, k);
  }

  /** Appending a tattoo keeps a valid selection valid, adds one unselected,
      neutral overlay at the end and renders every earlier overlay exactly as
      before. */
  lemma AppendKeepsEarlierOverlays(tattoos: seq<string>, src: string, selected: Option<nat>, shared: Controls)
    requires SelectionValid(tattoos, selected)
    ensures SelectionValid(tattoos + [src], selected)
    ensures Render(tattoos + [src], selected, shared)[..|tattoos|] == Render(tattoos, selected, shared)
    ensures Render(tattoos + [src], selected, shared)[|tattoos|] == OverlayProps(src, false, NeutralControls)
  {
  }

  /** Selecting `b` after `a` moves the handle and the shared controls from
      `a` to `b`; `a` goes back to the neutral values, so what was set while
      `a` was selected is no longer shown on it. */
  lemma SelectionMovesHandleAndControls(tattoos: seq<string>, a: nat, b: nat, shared: Controls)
    requires a < |tattoos| && b < |tattoos| && a != b
    ensures var before := Render(tattoos, Some(a), shared);
            var after := Render(tattoos, Some(b), shared);
            && before[a].isSelected && !before[b].isSelected
            && !after[a].isSelected && after[b].isSelected
            && before[a].controls == shared && after[b].controls == shared
            && AttrsOf(after[a].controls) == ImageAttrs(1.0, 1.0, 0.0, 1.0)
  {
  }

  // ---------------------------------------------------------------------
  // Minimum-size guard of the resize handles

  /** A bounding box as the transform handles propose it. */
  datatype Box = Box(x: real, y: real, width: real, height: real, rotation: real)

  const MinBoxSize: real := 20.0

  predicate LargeEnough(b: Box) {
    b.width >= MinBoxSize && b.height >= MinBoxSize
  }

  /** The `boundBoxFunc` callback: a proposal narrower or shorter than 20 is
      refused and the old box kept; any other proposal, exactly 20 included,
      is taken. */
  function BoundBox(oldBox: Box, newBox: Box): (r: Box)
    ensures LargeEnough(newBox) ==> r == newBox
    ensures !LargeEnough(newBox) ==> r == oldBox
    ensures LargeEnough(oldBox) ==> LargeEnough(r)
  {
    if newBox.width < 20.0 || newBox.height < 20.0 then oldBox else newBox
  }

  /** The box after the guard has judged each proposal of one resize gesture
      in turn, each against the box kept so far. */
  function ApplyResizes(box: Box, proposals: seq<Box>): Box
    decreases |proposals|
  {
    if proposals == [] then box else ApplyResizes(BoundBox(box, proposals[0]), proposals[1..])
  }

  /** However many proposals a gesture makes, a box that starts at least
      20 x 20 ends at least 20 x 20, and it is the start box or one of the
      proposals. */
  lemma {:induction false} ResizesKeepMinimumSize(box: Box, proposals: seq<Box>)
    requires LargeEnough(box)
    ensures LargeEnough(ApplyResizes(box, proposals))
    ensures ApplyResizes(box, proposals) == box || ApplyResizes(box, proposals) in proposals
    decreases |proposals|
  {
    if proposals != [] {
      var next := BoundBox(box, proposals[0]);
      ResizesKeepMinimumSize(next, proposals[1..]);
      var r := ApplyResizes(next, proposals[1..]);
      assert r == next || r in proposals[1..];
      if r in proposals[1..] {
        var j :| 0 <= j < |proposals[1..]| && proposals[1..][j] == r;
        assert proposals[j + 1] == r;
      } else {
        assert next == box || next == proposals[0];
      }
    }
  }

  // ---------------------------------------------------------------------
  // Removing one entry

  /** `s.splice(start, 1)` on a copy: the entry at `start` goes and the rest
      keep their order; a start past the end removes nothing. */
  function Splice(s: seq<string>, start: nat): (r: seq<string>)
    ensures start < |s| ==> |r| == |s| - 1
    ensures start < |s| ==> forall j :: 0 <= j < start ==> r[j] == s[j]
    ensures start < |s| ==> forall j :: start <= j < |r| ==> r[j] == s[j + 1]
    ensures start >= |s| ==> r == s
  {
    if start < |s| then s[..start] + s[start + 1..] else s
  }

  /** Removing the entry at `i` takes out exactly that one entry. */
  lemma SpliceRemovesOne(s: seq<string>, i: nat)
    requires i < |s|
    ensures multiset(Splice(s, i)) + multiset{s[i]} == multiset(s)
  {
    assert s == s[..i] + [s[i]] + s[i + 1..];
    calc {
      multiset(s);
      multiset(s[..i] + [s[i]] + s[i + 1..]);
      multiset(s[..i]) + multiset{s[i]} + multiset(s[i + 1..]);
      multiset(s[..i] + s[i + 1..]) + multiset{s[i]};
    }
  }

  /** The selection names nothing or an overlay of the list. */
  predicate SelectionValid(tattoos: seq<string>, selected: Option<nat>) {
    selected.None? || selected.value < |tattoos|
  }

  // ---------------------------------------------------------------------
  // The components

  /** The editor component's state, replaced field by field by its handlers. */
  class Editor {
    var bodyImage: Option<string>
    var tattoos: seq<string>
    var selectedIndex: Option<nat>
    var controls: Controls

    ghost predicate Valid()
      reads this
    {
      SelectionValid(tattoos, selectedIndex)
    }

    /** What the overlay layer renders. */
    /** What the overlay layer renders: one overlay per tattoo, and a
        transform handle on exactly the selected one, if any. */
    function Overlays(): (r: seq<OverlayProps>)
      reads this
      ensures |r| == |tattoos|
      ensures CountTransformers(r) <= 1
      ensures Valid() ==> (CountTransformers(r) == 1 <==> selectedIndex.Some?)
    {
      AtMostOneTransformer(tattoos, selectedIndex, controls);
      Render(tattoos, selectedIndex, controls)
    }

    constructor ()
      ensures Valid()
      ensures bodyImage == None && tattoos == [] && selectedIndex == None && controls == InitialControls
    {
      bodyImage := None;
      tattoos := [];
      selectedIndex := None;
      controls := InitialControls;
    }

    /** The body-photo input: no file chosen is a no-op; otherwise the file's
        data URL becomes the body image. */
    method HandleBodyUpload(dataUrl: Option<string>)
      requires Valid()
      modifies this`bodyImage
      ensures bodyImage == if dataUrl.Some? then dataUrl else old(bodyImage)
      ensures Valid()
    {
      if dataUrl.None? {
        return;
      }
      bodyImage := dataUrl;
    }

    /** A thumbnail click appends its source; the selection is untouched. */
    method HandleTattooClick(src: string)
      requires Valid()
      modifies this`tattoos
      ensures Valid()
      ensures tattoos == old(tattoos) + [src]
    {
      tattoos := tattoos + [src];
    }

    /** Clicking or tapping overlay `i`. */
    method Select(i: nat)
      requires i < |tattoos|
      modifies this`selectedIndex
      ensures Valid()
      ensures selectedIndex == Some(i)
    {
      selectedIndex := Some(i);
    }

    method HandleControlChange(key: ControlKey, value: real)
      requires Valid()
      modifies this`controls
      ensures controls == WithControl(old(controls), key, value)
      ensures Valid()
    {
      controls := WithControl(controls, key, value);
    }

    /** Delete removes the selected entry and clears the selection; with no
        selection it does nothing. */
    method HandleDeleteTattoo()
      requires Valid()
      modifies this`tattoos, this`selectedIndex
      ensures Valid()
      ensures old(selectedIndex).None? ==> tattoos == old(tattoos) && selectedIndex == None
      ensures old(selectedIndex).Some? ==>
                tattoos == Splice(old(tattoos), old(selectedIndex).value) && selectedIndex == None
    {
      if selectedIndex.Some? {
        var updated := tattoos;
        updated := Splice(updated, selectedIndex.value);
        tattoos := updated;
        selectedIndex := None;
      }
    }
  }

  /** One overlay component's own state: the position its image was last
      dropped at. */
  class DraggableTattoo {
    const src: string
    var attrs: Point

    constructor (src: string)
      ensures this.src == src && attrs == Point(200.0, 200.0)
    {
      this.src := src;
      attrs := Point(200.0, 200.0);
    }

    /** The end of a drag stores where the image node now is. */
    method HandleDragEnd(target: Point)
      modifies this`attrs
      ensures attrs == target
    {
      attrs := Point(target.x, target.y);
    }
  }
}
