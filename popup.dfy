/** The placement engine of the Popup component (src/modules/Popup/Popup.js):
    the style record for a named placement, the push by the `offset` prop,
    the fallback over the other placements when the preferred one leaves the
    viewport, and the portal flags derived from the `on` prop. */
module Popup {
  import opened Layout
  import opened StyleInViewport

  // ---------------------------------------------------------------------------
  // Placements
  // ---------------------------------------------------------------------------

  /** The eight placement names of POSITIONS: "top left", "top right",
      "bottom right", "bottom left", "right center", "left center",
      "top center" and "bottom center". */
  datatype Position =
    | TopLeft | TopRight | BottomRight | BottomLeft
    | RightCenter | LeftCenter | TopCenter | BottomCenter
  {
    // `_.includes(name, word)`: the names that contain each word. No name
    // holds both words of an axis, and a name with neither is a centred one.
    predicate HasLeft()
      ensures HasLeft() && !HasTop() && !HasBottom() ==> this == LeftCenter
    {
      this == TopLeft || this == BottomLeft || this == LeftCenter
    }

    predicate HasRight()
      ensures HasRight() ==> !HasLeft()
      ensures !HasLeft() && !HasRight() ==> this == TopCenter || this == BottomCenter
    {
      this == TopRight || this == BottomRight || this == RightCenter
    }

    predicate HasTop()
      ensures HasTop() ==> this != LeftCenter && this != RightCenter
    {
      this == TopLeft || this == TopRight || this == TopCenter
    }

    predicate HasBottom()
      ensures HasBottom() ==> !HasTop()
      ensures !HasTop() && !HasBottom() ==> this == LeftCenter || this == RightCenter
    {
      this == BottomLeft || this == BottomRight || this == BottomCenter
    }
  }

  /** The canonical order in which fallback placements are tried. */
  const POSITIONS: seq<Position> :=
    [TopLeft, TopRight, BottomRight, BottomLeft, RightCenter, LeftCenter, TopCenter, BottomCenter]

  /** Where a placement stands in POSITIONS. */
  function Index(p: Position): (k: nat)
    ensures k < |POSITIONS| && POSITIONS[k] == p
    ensures forall j :: 0 <= j < |POSITIONS| && j != k ==> POSITIONS[j] != p
  {
    match p
    case TopLeft => 0
    case TopRight => 1
    case BottomRight => 2
    case BottomLeft => 3
    case RightCenter => 4
    case LeftCenter => 5
    case TopCenter => 6
    case BottomCenter => 7
  }

  // ---------------------------------------------------------------------------
  // Offset
  // ---------------------------------------------------------------------------

  /** The first component of `_.isNumber(offset) ? [offset, 0] : offset`
      (None when the array has no such element, i.e. undefined). */
  function HorizontalOffset(offset: Offset): (r: Option<real>)
    ensures offset.Number? ==> r == Some(offset.x)
    ensures offset.List? ==> (r.Some? <==> |offset.xs| >= 1)
    ensures offset.List? && r.Some? ==> r.value == offset.xs[0]
  {
    match offset
    case Number(x) => Some(x)
    case List(xs) => if |xs| > 0 then Some(xs[0]) else None
  }

  /** The second component: 0 for a number. */
  function VerticalOffset(offset: Offset): (r: Option<real>)
    ensures offset.Number? ==> r == Some(0.0)
    ensures offset.List? ==> (r.Some? <==> |offset.xs| >= 2)
    ensures offset.List? && r.Some? ==> r.value == offset.xs[1]
  {
    match offset
    case Number(_) => Some(0.0)
    case List(xs) => if |xs| > 1 then Some(xs[1]) else None
  }

  datatype HorizontalEdges = HorizontalEdges(left: Edge, right: Edge)
  datatype VerticalEdges = VerticalEdges(top: Edge, bottom: Edge)

  /** Pushes the numeric horizontal edge by the offset: `right` when it is a
      number, `left` otherwise. The other edge is left as it was. */
  function ComputeHorizontalOffset(left: Edge, right: Edge, offset: Option<real>): (r: HorizontalEdges)
    ensures right.IsNumber() ==> r.left == left
    ensures !right.IsNumber() ==> r.right == right
    ensures right.Px? && offset.Some? ==> r.right == Px(right.px - offset.value)
    ensures right.IsNumber() && !(right.Px? && offset.Some?) ==> r.right == NaN
    ensures !right.IsNumber() && left.Px? && offset.Some? ==> r.left == Px(left.px - offset.value)
    ensures !right.IsNumber() && !(left.Px? && offset.Some?) ==> r.left == NaN
  {
    if right.IsNumber() then HorizontalEdges(left, Minus(right, offset))
    else HorizontalEdges(Minus(left, offset), right)
  }

  /** Pushes the numeric vertical edge by the offset: `top` when it is a
      number, `bottom` otherwise. The other edge is left as it was. */
  function ComputeVerticalOffset(top: Edge, bottom: Edge, offset: Option<real>): (r: VerticalEdges)
    ensures top.IsNumber() ==> r.bottom == bottom
    ensures !top.IsNumber() ==> r.top == top
    ensures top.Px? && offset.Some? ==> r.top == Px(top.px + offset.value)
    ensures top.IsNumber() && !(top.Px? && offset.Some?) ==> r.top == NaN
    ensures !top.IsNumber() && bottom.Px? && offset.Some? ==> r.bottom == Px(bottom.px + offset.value)
    ensures !top.IsNumber() && !(bottom.Px? && offset.Some?) ==> r.bottom == NaN
  {
    if top.IsNumber() then VerticalEdges(Plus(top, offset), bottom)
    else VerticalEdges(top, Plus(bottom, offset))
  }

  /** The four edges after both pushes: on each axis the edge that is not
      pushed stays as it was, and with both offset components defined an
      anchored style stays anchored, its numeric edges moved by them. */
  function ComputeOffset(edges: Edges, offset: Offset): (r: Edges)
    ensures edges.right.IsNumber() ==> r.left == edges.left
    ensures !edges.right.IsNumber() ==> r.right == edges.right
    ensures edges.top.IsNumber() ==> r.bottom == edges.bottom
    ensures !edges.top.IsNumber() ==> r.top == edges.top
    ensures Anchored(edges) && HorizontalOffset(offset).Some? && VerticalOffset(offset).Some? ==>
      && Anchored(r)
      && (edges.right.Px? ==> r.right.px == edges.right.px - HorizontalOffset(offset).value)
      && (edges.left.Px? ==> r.left.px == edges.left.px - HorizontalOffset(offset).value)
      && (edges.top.Px? ==> r.top.px == edges.top.px + VerticalOffset(offset).value)
      && (edges.bottom.Px? ==> r.bottom.px == edges.bottom.px + VerticalOffset(offset).value)
  {
    var h := ComputeHorizontalOffset(edges.left, edges.right, HorizontalOffset(offset));
    var v := ComputeVerticalOffset(edges.top, edges.bottom, VerticalOffset(offset));
    Edges(h.left, h.right, v.top, v.bottom)
  }

  /** One numeric edge per axis, the other one 'auto'. */
  predicate Anchored(e: Edges) {
    && ((e.left.Px? && e.right.Auto?) || (e.left.Auto? && e.right.Px?))
    && ((e.top.Px? && e.bottom.Auto?) || (e.top.Auto? && e.bottom.Px?))
  }

  /** The offset moves the element, as the viewport check places it, away
      from the side its numeric edge is measured from: an element held by its
      right edge moves right by the horizontal offset, one held by its left
      edge moves left; one held by its top edge moves down by the vertical
      offset, one held by its bottom edge moves up. */
  lemma OffsetMovesElement(coordinates: Rect, position: string, edges: Edges, h: real, v: real, vp: Viewport)
    requires Anchored(edges)
    ensures
      var before := PopupStyle(position, edges);
      var after := PopupStyle(position, ComputeOffset(edges, List([h, v])));
      && Anchored(after.edges)
      && ElementLeft(coordinates, after, vp).px
         == ElementLeft(coordinates, before, vp).px + (if edges.right.Px? then h else -h)
      && ElementTop(coordinates, after, vp).px
         == ElementTop(coordinates, before, vp).px + (if edges.top.Px? then v else -v)
  {
  }

  /** Pushing by an offset and then by its opposite restores the edges. */
  lemma OffsetUndone(edges: Edges, h: real, v: real)
    requires Anchored(edges)
    ensures ComputeOffset(ComputeOffset(edges, List([h, v])), List([-h, -v])) == edges
  {
  }

  /** A number offset pushes horizontally only. */
  lemma NumberOffsetIsHorizontal(edges: Edges, x: real)
    requires Anchored(edges)
    ensures ComputeOffset(edges, Number(x)) == ComputeOffset(edges, List([x, 0.0]))
    ensures edges.top.Px? ==> ComputeOffset(edges, Number(x)).top == edges.top
    ensures edges.bottom.Px? ==> ComputeOffset(edges, Number(x)).bottom == edges.bottom
  {
  }

  // ---------------------------------------------------------------------------
  // Placement geometry
  // ---------------------------------------------------------------------------

  /** Everything computePopupStyle reads besides the placement: the trigger's
      rectangle (`this.coords`), the popup's (`this.popupCoords`), the
      `offset` prop, and the window's measurements. */
  datatype Scene = Scene(coords: Rect, popupCoords: Rect, offset: Offset, viewport: Viewport)

  /** The style for a placement before the offset push: one numeric edge per
      axis, measured from the page, rounded to whole pixels. */
  function BaseStyle(s: Scene, pos: Position): (r: PopupStyle)
    ensures r.position == "absolute"
    ensures Anchored(r.edges)
    ensures r.edges.right.Px? <==> pos.HasRight()
    ensures r.edges.bottom.Px? <==> pos.HasTop()
    // every edge is rounded; a side placement subtracts the unrounded gap
    ensures r.edges.top.Px? ==> Whole(r.edges.top.px)
    ensures r.edges.bottom.Px? ==> Whole(r.edges.bottom.px)
    ensures pos.HasTop() || pos.HasBottom() ==>
      && (r.edges.left.Px? ==> Whole(r.edges.left.px))
      && (r.edges.right.Px? ==> Whole(r.edges.right.px))
    ensures !pos.HasTop() && !pos.HasBottom() && pos.HasRight() ==>
      Whole(r.edges.right.px + s.popupCoords.width + 8.0)
    ensures !pos.HasTop() && !pos.HasBottom() && !pos.HasRight() ==>
      Whole(r.edges.left.px + s.popupCoords.width + 8.0)
  {
    var c, popup, vp := s.coords, s.popupCoords, s.viewport;
    var h :=
      if pos.HasRight() then
        HorizontalEdges(Auto, Px(Round(vp.clientWidth - (c.Right() + vp.pageXOffset))))
      else if pos.HasLeft() then
        HorizontalEdges(Px(Round(c.left + vp.pageXOffset)), Auto)
      else
        // neither left nor right: centred horizontally on the trigger
        var xOffset := (c.width - popup.width) / 2.0;
        HorizontalEdges(Px(Round(c.left + xOffset + vp.pageXOffset)), Auto);
    var v :=
      if pos.HasTop() then
        VerticalEdges(Auto, Px(Round(vp.clientHeight - (c.top + vp.pageYOffset))))
      else if pos.HasBottom() then
        VerticalEdges(Px(Round(c.Bottom() + vp.pageYOffset)), Auto)
      else
        // neither top nor bottom: centred vertically on the trigger
        var yOffset := (c.height + popup.height) / 2.0;
        VerticalEdges(Px(Round((c.Bottom() + vp.pageYOffset) - yOffset)), Auto);
    var side :=
      if pos.HasTop() || pos.HasBottom() then h
      else
        // beside the trigger: moved out by the popup's width and an 8px gap
        var xOffset := popup.width + 8.0;
        if pos.HasRight() then h.(right := Minus(h.right, Some(xOffset)))
        else h.(left := Minus(h.left, Some(xOffset)));
    PopupStyle("absolute", Edges(side.left, side.right, v.top, v.bottom))
  }

  /** computePopupStyle: the base style with its edges pushed by the offset. */
  function ComputePopupStyle(s: Scene, pos: Position): (r: PopupStyle)
    ensures r.position == "absolute"
    ensures r.edges.left.Auto? != r.edges.right.Auto?
    ensures r.edges.top.Auto? != r.edges.bottom.Auto?
    ensures HorizontalOffset(s.offset).Some? && VerticalOffset(s.offset).Some? ==> Anchored(r.edges)
  {
    var style := BaseStyle(s, pos);
    PopupStyle(style.position, ComputeOffset(style.edges, s.offset))
  }

  /** Where each placement puts the popup horizontally, as the viewport check
      resolves its edges, rounded as Math.round rounds (a half pixel goes
      up on a left edge and down where the right edge holds it): level
      with the trigger's left or right edge for a corner, centred on it for
      "top/bottom center", 8px beside it for "left/right center"; then pushed
      by the horizontal offset (to the right for right-held placements, to the
      left otherwise). */
  lemma HorizontalPlacement(s: Scene, pos: Position)
    requires HorizontalOffset(s.offset).Some?
    ensures
      var h := HorizontalOffset(s.offset).value;
      var left := ElementLeft(s.popupCoords, ComputePopupStyle(s, pos), s.viewport);
      var c, w, x := s.coords, s.popupCoords.width, s.viewport.pageXOffset;
      && left.Px?
      && (pos == TopLeft || pos == BottomLeft ==> NearUp(left.px, c.left + x - h))
      && (pos == TopRight || pos == BottomRight ==> NearDown(left.px + w, c.Right() + x + h))
      && (pos == TopCenter || pos == BottomCenter ==> NearUp(left.px, c.left + (c.width - w) / 2.0 + x - h))
      && (pos == LeftCenter ==> NearUp(left.px + w + 8.0, c.left + x - h))
      && (pos == RightCenter ==> NearDown(left.px, c.Right() + x + 8.0 + h))
  {
  }

  /** Where each placement puts the popup vertically, rounded as Math.round
      rounds (a half pixel goes down where the bottom edge holds it, up
      otherwise):
      resting on the trigger's top edge for "top ...", hanging from its bottom
      edge for "bottom ...", centred on it for "left/right center"; then
      pushed by the vertical offset (down when held by its top, up otherwise). */
  lemma VerticalPlacement(s: Scene, pos: Position)
    requires VerticalOffset(s.offset).Some?
    ensures
      var v := VerticalOffset(s.offset).value;
      var top := ElementTop(s.popupCoords, ComputePopupStyle(s, pos), s.viewport);
      var c, ht, y := s.coords, s.popupCoords.height, s.viewport.pageYOffset;
      && top.Px?
      && (pos.HasTop() ==> NearDown(top.px + ht, c.top + y - v))
      && (pos.HasBottom() ==> NearUp(top.px, c.Bottom() + y + v))
      && (pos == LeftCenter || pos == RightCenter ==> NearUp(top.px, c.top + (c.height - ht) / 2.0 + y + v))
  {
  }

  // ---------------------------------------------------------------------------
  // Fallback
  // ---------------------------------------------------------------------------

  /** The style of this placement keeps the popup inside the viewport. */
  predicate Fits(s: Scene, pos: Position) {
    IsStyleInViewport(s.popupCoords, ComputePopupStyle(s, pos), s.viewport)
  }

  /** `_.without(xs, x)`: xs with every occurrence of x removed, in order. */
  function Without(xs: seq<Position>, x: Position): (r: seq<Position>)
    ensures |r| <= |xs|
    ensures x !in r
    ensures forall y :: y != x ==> (y in r <==> y in xs)
  {
    if xs == [] then []
    else if xs[0] == x then Without(xs[1..], x)
    else [xs[0]] + Without(xs[1..], x)
  }

  /** Without removes every occurrence of x and keeps every other element
      with its multiplicity. */
  lemma {:induction false} WithoutMultiset(xs: seq<Position>, x: Position)
    ensures multiset(Without(xs, x)) == multiset(xs)[x := 0]
  {
    if xs != [] {
      var rest := Without(xs[1..], x);
      WithoutMultiset(xs[1..], x);
      assert xs == [xs[0]] + xs[1..];
      assert multiset(xs) == multiset{xs[0]} + multiset(xs[1..]);
      if xs[0] != x {
        assert multiset([xs[0]] + rest) == multiset{xs[0]} + multiset(rest);
      }
    }
  }

  lemma {:induction false} WithoutAbsent(xs: seq<Position>, x: Position)
    requires x !in xs
    ensures Without(xs, x) == xs
  {
    if xs != [] {
      WithoutAbsent(xs[1..], x);
    }
  }

  /** Removing the one occurrence of x, at index k, shifts what follows it
      down by one and keeps everything before it in place. */
  lemma {:induction false} WithoutAt(xs: seq<Position>, x: Position, k: nat)
    requires k < |xs| && xs[k] == x
    requires forall j :: 0 <= j < |xs| && j != k ==> xs[j] != x
    ensures |Without(xs, x)| == |xs| - 1
    ensures forall i :: 0 <= i < |xs| - 1 ==> Without(xs, x)[i] == xs[if i < k then i else i + 1]
  {
    var tail := xs[1..];
    var r := Without(xs, x);
    if k == 0 {
      assert x !in tail by {
        forall j | 0 <= j < |tail| ensures tail[j] != x {
          assert tail[j] == xs[j + 1];
        }
      }
      WithoutAbsent(tail, x);
      assert r == tail;
    } else {
      forall j | 0 <= j < |tail| && j != k - 1 ensures tail[j] != x {
        assert tail[j] == xs[j + 1];
      }
      WithoutAt(tail, x, k - 1);
      var rest := Without(tail, x);
      assert r == [xs[0]] + rest;
      forall i | 0 <= i < |xs| - 1 ensures r[i] == xs[if i < k then i else i + 1] {
        if i > 0 {
          assert r[i] == rest[i - 1];
        }
      }
    }
  }

  /** Moving the one occurrence of a placement to the end keeps every
      placement and shifts the ones after it down by one. */
  lemma MoveToEnd(xs: seq<Position>, k: nat)
    requires k < |xs|
    requires forall j :: 0 <= j < |xs| && j != k ==> xs[j] != xs[k]
    ensures
      var r := Without(xs, xs[k]) + [xs[k]];
      && |r| == |xs| && r[|r| - 1] == xs[k]
      && (forall i :: 0 <= i < |r| - 1 ==> r[i] == xs[if i < k then i else i + 1])
      && multiset(r) == multiset(xs)
  {
    var x := xs[k];
    var rest := Without(xs, x);
    WithoutAt(xs, x, k);
    var r := rest + [x];
    forall i | 0 <= i < |r| - 1 ensures r[i] == xs[if i < k then i else i + 1] {
      assert r[i] == rest[i];
    }
    var m := multiset(xs);
    WithoutMultiset(xs, x);
    OccursOnce(xs, k);
    assert multiset(r) == m by {
      assert multiset(r) == m[x := 0] + multiset{x};
      assert forall q :: (m[x := 0] + multiset{x})[q] == m[q];
    }
  }

  /** An element that appears at index k and nowhere else occurs once. */
  lemma OccursOnce(xs: seq<Position>, k: nat)
    requires k < |xs|
    requires forall j :: 0 <= j < |xs| && j != k ==> xs[j] != xs[k]
    ensures multiset(xs)[xs[k]] == 1
  {
    var x := xs[k];
    var others := xs[..k] + xs[k + 1..];
    assert xs == xs[..k] + [x] + xs[k + 1..];
    assert x !in others by {
      forall j | 0 <= j < |others| ensures others[j] != x {
        assert others[j] == xs[if j < k then j else j + 1];
      }
    }
    assert multiset(xs) == multiset(others) + multiset{x};
  }

  /** The order setPopupStyle walks: POSITIONS without the preferred
      placement, then the preferred one. */
  function Candidates(preferred: Position): (r: seq<Position>)
    ensures |r| == |POSITIONS| && r[|r| - 1] == preferred
  {
    MoveToEnd(POSITIONS, Index(preferred));
    Without(POSITIONS, preferred) + [preferred]
  }

  /** The candidates are the eight placements, each once, in canonical order
      with the preferred one moved to the end. */
  lemma CandidatesOrder(preferred: Position)
    ensures forall i :: 0 <= i < |POSITIONS| - 1 ==>
      Candidates(preferred)[i] == POSITIONS[if i < Index(preferred) then i else i + 1]
    ensures multiset(Candidates(preferred)) == multiset(POSITIONS)
  {
    MoveToEnd(POSITIONS, Index(preferred));
  }

  /** Every placement is among the candidates walked. */
  lemma CandidatesComplete(preferred: Position, q: Position)
    ensures q in Candidates(preferred)
  {
    CandidatesOrder(preferred);
    assert q in multiset(POSITIONS) by {
      assert POSITIONS[Index(q)] == q;
    }
    assert q in multiset(Candidates(preferred));
  }

  /** The first of cands[from..] whose style fits, or the last candidate when
      none does. `style` turns a placement into its style record and
      `inViewport` tests a style record; setPopupStyle uses computePopupStyle
      and isStyleInViewport. */
  function FirstFitting(style: Position -> PopupStyle, inViewport: PopupStyle -> bool,
                        cands: seq<Position>, from: nat): (r: Position)
    requires from < |cands|
    ensures inViewport(style(r)) || r == cands[|cands| - 1]
    decreases |cands| - from
  {
    if from == |cands| - 1 || inViewport(style(cands[from])) then cands[from]
    else FirstFitting(style, inViewport, cands, from + 1)
  }

  /** FirstFitting picks index j when every candidate from `from` up to j
      fails and j fits or is the last. */
  lemma {:induction false} FirstFittingAt(style: Position -> PopupStyle, inViewport: PopupStyle -> bool,
                                          cands: seq<Position>, from: nat, j: nat)
    requires from <= j < |cands|
    requires forall k :: from <= k < j ==> !inViewport(style(cands[k]))
    requires inViewport(style(cands[j])) || j == |cands| - 1
    ensures FirstFitting(style, inViewport, cands, from) == cands[j]
    decreases j - from
  {
    if from < j {
      FirstFittingAt(style, inViewport, cands, from + 1, j);
    }
  }

  /** When some candidate from `from` on fits, the one picked fits. */
  lemma {:induction false} FirstFittingFits(style: Position -> PopupStyle, inViewport: PopupStyle -> bool,
                                            cands: seq<Position>, from: nat, j: nat)
    requires from <= j < |cands| && inViewport(style(cands[j]))
    ensures inViewport(style(FirstFitting(style, inViewport, cands, from)))
    decreases j - from
  {
    if from < j && !inViewport(style(cands[from])) {
      FirstFittingFits(style, inViewport, cands, from + 1, j);
    }
  }

  /** The candidate picked is preceded only by candidates that do not fit. */
  lemma {:induction false} FirstFittingIsFirst(style: Position -> PopupStyle, inViewport: PopupStyle -> bool,
                                               cands: seq<Position>, from: nat)
    requires from < |cands|
    ensures exists j :: (from <= j < |cands| && cands[j] == FirstFitting(style, inViewport, cands, from)
      && forall k :: from <= k < j ==> !inViewport(style(cands[k])))
    decreases |cands| - from
  {
    if from == |cands| - 1 || inViewport(style(cands[from])) {
      assert cands[from] == FirstFitting(style, inViewport, cands, from);
    } else {
      FirstFittingIsFirst(style, inViewport, cands, from + 1);
      var j :| from + 1 <= j < |cands| && cands[j] == FirstFitting(style, inViewport, cands, from + 1)
        && forall k :: from + 1 <= k < j ==> !inViewport(style(cands[k]));
      assert cands[j] == FirstFitting(style, inViewport, cands, from);
    }
  }

  /** What the loop of setPopupStyle settles on for a walk `cands` that ends
      with the preferred placement: the preferred one when it fits, otherwise
      the first candidate that fits, otherwise the last candidate. */
  function Walk(style: Position -> PopupStyle, inViewport: PopupStyle -> bool,
                preferred: Position, cands: seq<Position>): (r: Position)
    requires |cands| > 0 && cands[|cands| - 1] == preferred
    ensures inViewport(style(preferred)) ==> r == preferred
    ensures r == preferred || inViewport(style(r))
  {
    if inViewport(style(preferred)) then preferred
    else FirstFitting(style, inViewport, cands, 0)
  }

  /** Whenever some candidate fits, the placement settled on fits. */
  lemma WalkFitsWhenSomethingFits(style: Position -> PopupStyle, inViewport: PopupStyle -> bool,
                                  preferred: Position, cands: seq<Position>, j: nat)
    requires |cands| > 0 && cands[|cands| - 1] == preferred
    requires j < |cands| && inViewport(style(cands[j]))
    ensures inViewport(style(Walk(style, inViewport, preferred, cands)))
  {
    if !inViewport(style(preferred)) {
      FirstFittingFits(style, inViewport, cands, 0, j);
    }
  }

  /** When no candidate fits, the preferred placement is kept. */
  lemma WalkFallsBackToPreferred(style: Position -> PopupStyle, inViewport: PopupStyle -> bool,
                                 preferred: Position, cands: seq<Position>)
    requires |cands| > 0 && cands[|cands| - 1] == preferred
    requires forall k :: 0 <= k < |cands| ==> !inViewport(style(cands[k]))
    ensures Walk(style, inViewport, preferred, cands) == preferred
  {
    FirstFittingAt(style, inViewport, cands, 0, |cands| - 1);
  }

  /** A placement other than the preferred one is chosen only when the
      preferred one and every candidate before it fail. */
  lemma WalkSkipsOnlyMisfits(style: Position -> PopupStyle, inViewport: PopupStyle -> bool,
                             preferred: Position, cands: seq<Position>)
    requires |cands| > 0 && cands[|cands| - 1] == preferred
    ensures
      var r := Walk(style, inViewport, preferred, cands);
      r != preferred ==>
        && !inViewport(style(preferred)) && inViewport(style(r))
        && exists j :: (0 <= j < |cands| && cands[j] == r
             && forall k :: 0 <= k < j ==> !inViewport(style(cands[k])))
  {
    if !inViewport(style(preferred)) {
      FirstFittingIsFirst(style, inViewport, cands, 0);
    }
  }

  /** computePopupStyle for one scene, as a function of the placement. */
  function StyleFor(s: Scene): Position -> PopupStyle {
    pos => ComputePopupStyle(s, pos)
  }

  /** isStyleInViewport for the popup's measured size in one viewport. */
  function InViewport(s: Scene): PopupStyle -> bool {
    style => IsStyleInViewport(s.popupCoords, style, s.viewport)
  }

  /** The placement setPopupStyle settles on in a scene. */
  function ResolvePosition(s: Scene, preferred: Position): (r: Position)
    ensures Fits(s, preferred) ==> r == preferred
    ensures r == preferred || Fits(s, r)
  {
    Walk(StyleFor(s), InViewport(s), preferred, Candidates(preferred))
  }

  /** Whenever some placement fits the scene, the one settled on fits. */
  lemma ResolveFitsWhenSomethingFits(s: Scene, preferred: Position, q: Position)
    requires Fits(s, q)
    ensures Fits(s, ResolvePosition(s, preferred))
  {
    var cands := Candidates(preferred);
    CandidatesComplete(preferred, q);
    var j :| 0 <= j < |cands| && cands[j] == q;
    WalkFitsWhenSomethingFits(StyleFor(s), InViewport(s), preferred, cands, j);
  }

  /** When no placement fits the scene, the preferred one is kept. */
  lemma ResolveFallsBackToPreferred(s: Scene, preferred: Position)
    requires forall q: Position :: !Fits(s, q)
    ensures ResolvePosition(s, preferred) == preferred
  {
    var cands := Candidates(preferred);
    forall k | 0 <= k < |cands| ensures !InViewport(s)(StyleFor(s)(cands[k])) {
      assert !Fits(s, cands[k]);
    }
    WalkFallsBackToPreferred(StyleFor(s), InViewport(s), preferred, cands);
  }

  /** A placement other than the preferred one is chosen only when the
      preferred one and every candidate before it in the walk fail to fit. */
  lemma ResolveSkipsOnlyMisfits(s: Scene, preferred: Position)
    ensures
      var r := ResolvePosition(s, preferred);
      var cands := Candidates(preferred);
      r != preferred ==>
        && !Fits(s, preferred) && Fits(s, r)
        && exists j :: (0 <= j < |cands| && cands[j] == r
             && forall k :: 0 <= k < j ==> !Fits(s, cands[k]))
  {
    var cands := Candidates(preferred);
    WalkSkipsOnlyMisfits(StyleFor(s), InViewport(s), preferred, cands);
  }

  // ---------------------------------------------------------------------------
  // The component
  // ---------------------------------------------------------------------------

  datatype Trigger = Hover | Click | Focus

  /** The `on` prop: one trigger or an array of them. */
  datatype On = One(trigger: Trigger) | Many(triggers: seq<Trigger>)

  /** The props the placement code reads (the portal props read `on` and
      `hoverable`, which GetPortalProps takes as its parameters). */
  datatype PopupProps = PopupProps(position: Position, offset: Offset)

  const DEFAULT_ON: On := One(Hover)

  /** A Popup: its props, the rectangles measured when it opens and mounts,
      and the style and placement it keeps in its component state. */
  class Popup {
    const props: PopupProps
    var coords: Option<Rect>
    var popupCoords: Option<Rect>
    var style: Option<PopupStyle>
    var position: Option<Position>

    constructor(props: PopupProps)
      ensures this.props == props
      ensures coords == None && popupCoords == None
      ensures style == None && position == None
    {
      this.props := props;
      coords, popupCoords := None, None;
      style, position := None, None;
    }

    /** Does nothing until both rectangles are measured; otherwise stores the
        placement the fallback settles on and its style. */
    method SetPopupStyle(vp: Viewport)
      modifies this`style, this`position
      ensures coords.None? || popupCoords.None? ==> style == old(style) && position == old(position)
      ensures coords.Some? && popupCoords.Some? ==>
        var s := Scene(coords.value, popupCoords.value, props.offset, vp);
        && position == Some(ResolvePosition(s, props.position))
        && style == Some(ComputePopupStyle(s, position.value))
    {
      if coords.None? || popupCoords.None? {
        return;
      }
      var s := Scene(coords.value, popupCoords.value, props.offset, vp);
      var positions := Candidates(props.position);
      var st, pos := FallBack(StyleFor(s), InViewport(s), props.position, positions);
      style, position := Some(st), Some(pos);
      assert s == Scene(coords.value, popupCoords.value, props.offset, vp);
    }
  }

  /** The loop of setPopupStyle: tries the preferred placement, then each
      of `positions` in turn, and stops at the first whose style fits or
      when the walk is exhausted. */
  method FallBack(computeStyle: Position -> PopupStyle, inViewport: PopupStyle -> bool,
                  preferred: Position, positions: seq<Position>)
    returns (style: PopupStyle, position: Position)
    requires |positions| > 0 && positions[|positions| - 1] == preferred
    ensures position == Walk(computeStyle, inViewport, preferred, positions)
    ensures style == computeStyle(position)
  {
    position := preferred;
    style := computeStyle(position);
    var i := 0;
    while !inViewport(style) && i < |positions|
      invariant 0 <= i <= |positions|
      invariant style == computeStyle(position)
      invariant i == 0 ==> position == preferred
      // what is left to try decides the outcome
      invariant 0 < i ==>
        && position == positions[i - 1]
        && Walk(computeStyle, inViewport, preferred, positions)
           == FirstFitting(computeStyle, inViewport, positions, i - 1)
      decreases |positions| - i
    {
      style := computeStyle(positions[i]);
      position := positions[i];
      i := i + 1;
    }
  }


  // ---------------------------------------------------------------------------
  // Portal props
  // ---------------------------------------------------------------------------

  /** `on` as an array. */
  function NormalizeOn(on: On): (r: seq<Trigger>)
    ensures forall t :: t in r <==> (if on.One? then t == on.trigger else t in on.triggers)
  {
    match on
    case One(t) => [t]
    case Many(ts) => ts
  }

  /** The flags and delays handed to the Portal; None for a key never set. */
  datatype PortalProps = PortalProps(
    closeOnPortalMouseLeave: Option<bool>,
    mouseLeaveDelay: Option<int>,
    openOnTriggerClick: Option<bool>,
    closeOnTriggerClick: Option<bool>,
    closeOnDocumentClick: Option<bool>,
    openOnTriggerFocus: Option<bool>,
    closeOnTriggerBlur: Option<bool>,
    openOnTriggerMouseEnter: Option<bool>,
    closeOnTriggerMouseLeave: Option<bool>,
    mouseEnterDelay: Option<int>)

  const NO_PORTAL_PROPS := PortalProps(None, None, None, None, None, None, None, None, None, None)

  function GetPortalProps(on: On, hoverable: bool): (r: PortalProps)
    ensures
      var triggers := NormalizeOn(on);
      var click := if Click in triggers then Some(true) else None;
      var focus := if Focus in triggers then Some(true) else None;
      var hover := Hover in triggers;
      && r.openOnTriggerClick == click && r.closeOnTriggerClick == click && r.closeOnDocumentClick == click
      && r.openOnTriggerFocus == focus && r.closeOnTriggerBlur == focus
      && r.openOnTriggerMouseEnter == (if hover then Some(true) else None)
      && r.closeOnTriggerMouseLeave == (if hover then Some(false) else None)
      && r.mouseEnterDelay == (if hover then Some(50) else None)
      && r.closeOnPortalMouseLeave == (if hoverable then Some(true) else None)
      // hover's 70ms wins over hoverable's 300ms
      && r.mouseLeaveDelay == (if hover then Some(70) else if hoverable then Some(300) else None)
  {
    var normalizedOn := NormalizeOn(on);
    var props := NO_PORTAL_PROPS;
    var props :=
      if hoverable then props.(closeOnPortalMouseLeave := Some(true), mouseLeaveDelay := Some(300))
      else props;
    var props :=
      if Click in normalizedOn then
        props.(openOnTriggerClick := Some(true), closeOnTriggerClick := Some(true), closeOnDocumentClick := Some(true))
      else props;
    var props :=
      if Focus in normalizedOn then props.(openOnTriggerFocus := Some(true), closeOnTriggerBlur := Some(true))
      else props;
    if Hover in normalizedOn then
      props.(openOnTriggerMouseEnter := Some(true), closeOnTriggerMouseLeave := Some(false),
             mouseLeaveDelay := Some(70), mouseEnterDelay := Some(50))
    else props
  }

  /** A single trigger behaves as the one-element array. */
  lemma SingleTriggerIsArray(t: Trigger, hoverable: bool)
    ensures GetPortalProps(One(t), hoverable) == GetPortalProps(Many([t]), hoverable)
  {
  }

  /** The portal props depend only on which triggers are listed, not on
      their order or repetition. */
  lemma PortalPropsDependOnTriggerSet(on1: On, on2: On, hoverable: bool)
    requires forall t :: t in NormalizeOn(on1) <==> t in NormalizeOn(on2)
    ensures GetPortalProps(on1, hoverable) == GetPortalProps(on2, hoverable)
  {
  }

  /** With the default `on: 'hover'` and no hoverable, the popup opens on
      mouse enter after 50ms and closes 70ms after mouse leave. */
  lemma DefaultPortalProps()
    ensures GetPortalProps(DEFAULT_ON, false)
      == NO_PORTAL_PROPS.(openOnTriggerMouseEnter := Some(true), closeOnTriggerMouseLeave := Some(false),
                          mouseLeaveDelay := Some(70), mouseEnterDelay := Some(50))
  {
  }

  // ---------------------------------------------------------------------------
  // Worked scenarios
  // ---------------------------------------------------------------------------

  /** A 50x20 trigger at (100, 100) with an 80x30 popup in an unscrolled
      1000x800 viewport: "top left" puts the popup at left 100 and, once its
      bottom edge is resolved, top 70, directly above the trigger; it fits, so
      it is kept. */
  lemma TopLeftScenario()
    ensures
      var s := Scene(Rect(100.0, 100.0, 50.0, 20.0), Rect(0.0, 0.0, 80.0, 30.0), Number(0.0),
                     Viewport(1000.0, 800.0, 0.0, 0.0));
      var style := ComputePopupStyle(s, TopLeft);
      && style == PopupStyle("absolute", Edges(Px(100.0), Auto, Auto, Px(700.0)))
      && ElementTop(s.popupCoords, style, s.viewport) == Px(70.0)
      && ResolvePosition(s, TopLeft) == TopLeft
  {
  }

  /** An 81-wide popup centred over a 50-wide trigger at x = 100 would start
      at 84.5; "top center" rounds that half up, to 85. */
  lemma CentredTieRoundsUp()
    ensures
      var s := Scene(Rect(100.0, 100.0, 50.0, 20.0), Rect(0.0, 0.0, 81.0, 30.0), Number(0.0),
                     Viewport(1000.0, 800.0, 0.0, 0.0));
      ComputePopupStyle(s, TopCenter).edges.left == Px(85.0)
  {
  }

  /** The same scene in a viewport 150 wide. */
  const NARROW: Scene := Scene(Rect(100.0, 100.0, 50.0, 20.0), Rect(0.0, 0.0, 80.0, 30.0), Number(0.0),
                               Viewport(150.0, 800.0, 0.0, 0.0))

  /** There "top left" would overflow the right edge (100 + 80 > 150), while
      "top right", which ends at the trigger's right edge, fits. */
  lemma NarrowViewportFits()
    ensures !Fits(NARROW, TopLeft) && Fits(NARROW, TopRight)
  {
  }

  /** So the popup falls back to "top right", the first placement in
      canonical order once "top left" is moved to the end. */
  lemma NarrowViewportScenario()
    ensures ResolvePosition(NARROW, TopLeft) == TopRight
  {
    NarrowViewportFits();
    var cands := Candidates(TopLeft);
    assert cands[0] == TopRight by {
      CandidatesOrder(TopLeft);
    }
    FirstFittingAt(StyleFor(NARROW), InViewport(NARROW), cands, 0, 0);
  }
}
