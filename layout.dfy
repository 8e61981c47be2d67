/** Values shared by the Popup placement engine and the viewport check:
    rectangles measured in the browser, the window's scroll state, the
    value of one edge of an absolutely positioned style, and Math.round. */
module Layout {

  datatype Option<T> = None | Some(value: T)

  /** A rectangle as getBoundingClientRect reports it, in viewport pixels. */
  datatype Rect = Rect(left: real, top: real, width: real, height: real) {
    function Right(): real { left + width }
    function Bottom(): real { top + height }
  }

  /** What the placement code reads from `document.documentElement`
      (clientWidth, clientHeight) and from `window` (pageXOffset, pageYOffset). */
  datatype Viewport = Viewport(clientWidth: real, clientHeight: real, pageXOffset: real, pageYOffset: real)

  /** The `offset` prop of a Popup or a ToastGroup: a number or an array of numbers. */
  datatype Offset = Number(x: real) | List(xs: seq<real>)

  /** The value of one of the edges left/right/top/bottom of a style record:
      the string 'auto', a number of pixels, or NaN (what JavaScript yields
      for `'auto' - n` or `n - undefined`; lodash's isNumber holds of it). */
  datatype Edge = Auto | Px(px: real) | NaN {
    predicate IsNumber()
      ensures IsNumber() <==> Px? || NaN?
    {
      !Auto?
    }
  }

  /** `e - d` in JavaScript, with `d` undefined when absent. */
  function Minus(e: Edge, d: Option<real>): (r: Edge)
    ensures r.Px? <==> e.Px? && d.Some?
    ensures r.Px? ==> r.px + d.value == e.px
    ensures !r.Px? ==> r == NaN
  {
    if e.Px? && d.Some? then Px(e.px - d.value) else NaN
  }

  /** `e + d` in JavaScript on an edge that is a number or NaN, with `d`
      undefined when absent. An 'auto' edge gives NaN here too, where
      JavaScript would concatenate strings; the styles computePopupStyle
      builds never push one. */
  function Plus(e: Edge, d: Option<real>): (r: Edge)
    ensures r.Px? <==> e.Px? && d.Some?
    ensures r.Px? ==> r.px - d.value == e.px
    ensures !r.Px? ==> r == NaN
  {
    if e.Px? && d.Some? then Px(e.px + d.value) else NaN
  }

  /** The four edges of a style record. */
  datatype Edges = Edges(left: Edge, right: Edge, top: Edge, bottom: Edge)

  /** A Popup style record: the CSS `position` and the four edges. */
  datatype PopupStyle = PopupStyle(position: string, edges: Edges)

  /** `x` is a whole number of pixels. */
  predicate Whole(x: real) {
    x == x.Floor as real
  }

  /** Math.round: the nearest integer, halves rounded up. */
  function Round(x: real): (r: real)
    ensures Whole(r)
    ensures x - 0.5 < r <= x + 0.5
  {
    (x + 0.5).Floor as real
  }

  /** `a` is `b` rounded as Math.round rounds: within half a pixel, a half
      going up. */
  predicate NearUp(a: real, b: real) {
    b - 0.5 < a <= b + 0.5
  }

  /** `a` is within half a pixel of `b`, a half going down: what
      `c - Math.round(c - b)` gives, as for a side the viewport check
      resolves from an edge measured from the viewport's right or bottom. */
  predicate NearDown(a: real, b: real) {
    b - 0.5 <= a < b + 0.5
  }
}
