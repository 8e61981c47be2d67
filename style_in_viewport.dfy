/** Whether a style record keeps an element of a given size entirely inside
    the scrolled viewport (src/lib/isStyleInViewport.js). */
module StyleInViewport {
  import opened Layout

  /** The element's left edge after normalisation: a numeric `right`
      overrides `left` and is turned into a distance from the left. */
  function ElementLeft(coordinates: Rect, style: PopupStyle, vp: Viewport): (r: Edge)
    ensures r.Px? <==> style.edges.right.Px? || (style.edges.right.Auto? && style.edges.left.Px?)
    ensures style.edges.right.Px? ==>
      r.px + coordinates.width + style.edges.right.px == vp.clientWidth
    ensures style.edges.right.Auto? ==> r == style.edges.left
    ensures style.edges.right.NaN? ==> r == NaN
  {
    var right := style.edges.right;
    if right.Px? then Px(vp.clientWidth - right.px - coordinates.width)
    else if right.IsNumber() then NaN
    else style.edges.left
  }

  /** The element's top edge after normalisation: a numeric `bottom`
      overrides `top`. */
  function ElementTop(coordinates: Rect, style: PopupStyle, vp: Viewport): (r: Edge)
    ensures r.Px? <==> style.edges.bottom.Px? || (style.edges.bottom.Auto? && style.edges.top.Px?)
    ensures style.edges.bottom.Px? ==>
      r.px + coordinates.height + style.edges.bottom.px == vp.clientHeight
    ensures style.edges.bottom.Auto? ==> r == style.edges.top
    ensures style.edges.bottom.NaN? ==> r == NaN
  {
    var bottom := style.edges.bottom;
    if bottom.Px? then Px(vp.clientHeight - bottom.px - coordinates.height)
    else if bottom.IsNumber() then NaN
    else style.edges.top
  }

  /** The rectangle [left, left + width] x [top, top + height] lies inside the
      scrolled viewport [pageXOffset, pageXOffset + clientWidth] x
      [pageYOffset, pageYOffset + clientHeight]. */
  predicate Inside(left: real, top: real, width: real, height: real, vp: Viewport) {
    && vp.pageXOffset <= left && left + width <= vp.pageXOffset + vp.clientWidth
    && vp.pageYOffset <= top && top + height <= vp.pageYOffset + vp.clientHeight
  }

  /** `e < bound` in JavaScript: false unless `e` is a number. */
  predicate Below(e: Edge, bound: real)
    ensures Below(e, bound) ==> e.Px?
    ensures e.Px? ==> (Below(e, bound) <==> e.px < bound)
  {
    e.Px? && e.px < bound
  }

  /** `e + size > bound` in JavaScript: false unless `e` is a number. */
  predicate Beyond(e: Edge, size: real, bound: real)
    ensures Beyond(e, size, bound) ==> e.Px?
    ensures e.Px? ==> (Beyond(e, size, bound) <==> e.px + size > bound)
  {
    e.Px? && e.px + size > bound
  }

  function IsStyleInViewport(coordinates: Rect, style: PopupStyle, vp: Viewport): (r: bool)
    // each numeric edge must lie within the scrolled viewport; JavaScript
    // comparisons with NaN or 'auto' are false, so a non-numeric edge passes
    ensures
      var left := ElementLeft(coordinates, style, vp);
      var top := ElementTop(coordinates, style, vp);
      r <==>
        && (top.Px? ==> vp.pageYOffset <= top.px && top.px + coordinates.height <= vp.pageYOffset + vp.clientHeight)
        && (left.Px? ==> vp.pageXOffset <= left.px && left.px + coordinates.width <= vp.pageXOffset + vp.clientWidth)
    ensures
      var left := ElementLeft(coordinates, style, vp);
      var top := ElementTop(coordinates, style, vp);
      left.Px? && top.Px? ==>
        (r <==> Inside(left.px, top.px, coordinates.width, coordinates.height, vp))
  {
    var height, width := coordinates.height, coordinates.width;
    var left := ElementLeft(coordinates, style, vp);
    var top := ElementTop(coordinates, style, vp);
    if Below(top, vp.pageYOffset) then false                              // hidden on top
    else if Beyond(top, height, vp.pageYOffset + vp.clientHeight) then false  // hidden on the bottom
    else if Below(left, vp.pageXOffset) then false                        // hidden on the left
    else if Beyond(left, width, vp.pageXOffset + vp.clientWidth) then false   // hidden on the right
    else true
  }

  /** A numeric `right` takes precedence: the style's `left` is ignored. */
  lemma RightOverridesLeft(coordinates: Rect, style: PopupStyle, left: Edge, vp: Viewport)
    requires style.edges.right.IsNumber()
    ensures IsStyleInViewport(coordinates, style.(edges := style.edges.(left := left)), vp)
         == IsStyleInViewport(coordinates, style, vp)
  {
  }

  /** A numeric `bottom` takes precedence: the style's `top` is ignored. */
  lemma BottomOverridesTop(coordinates: Rect, style: PopupStyle, top: Edge, vp: Viewport)
    requires style.edges.bottom.IsNumber()
    ensures IsStyleInViewport(coordinates, style.(edges := style.edges.(top := top)), vp)
         == IsStyleInViewport(coordinates, style, vp)
  {
  }

  /** Only the width and height of the coordinates are read; the position
      comes from the style alone. */
  lemma SizeOnlyFromCoordinates(c1: Rect, c2: Rect, style: PopupStyle, vp: Viewport)
    requires c1.width == c2.width && c1.height == c2.height
    ensures IsStyleInViewport(c1, style, vp) == IsStyleInViewport(c2, style, vp)
  {
  }

  /** An element wider or taller than the viewport never fits once its
      edges resolve to numbers. */
  lemma OversizedNeverFits(coordinates: Rect, style: PopupStyle, vp: Viewport)
    requires ElementLeft(coordinates, style, vp).Px? && ElementTop(coordinates, style, vp).Px?
    requires coordinates.width > vp.clientWidth || coordinates.height > vp.clientHeight
    ensures !IsStyleInViewport(coordinates, style, vp)
  {
  }

  /** No case is made for an empty viewport: an element of size zero placed
      at the scroll offset of a 0x0 viewport passes all four bounds. */
  lemma EmptyViewportCanFit()
    ensures IsStyleInViewport(Rect(0.0, 0.0, 0.0, 0.0),
                              PopupStyle("absolute", Edges(Px(0.0), Auto, Px(0.0), Auto)),
                              Viewport(0.0, 0.0, 0.0, 0.0))
  {
  }
}
