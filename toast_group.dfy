/** The style record of a ToastGroup (src/addons/Toast/ToastGroup.js): the
    offset prop normalised to a pair and the fixed-position style built for
    the 'top right' corner. */
module ToastGroup {
  import opened Layout

  /** The value of one property of a style record. `Undefined` is what array
      destructuring yields past the end of a short offset array. */
  datatype CssValue = Str(s: string) | Num(n: real) | Undefined

  /** A style record: property name to value. */
  type Style = map<string, CssValue>

  /** The props computeStyle reads, after React has applied the defaults.
      An absent user `style` is the empty record: spreading `undefined` adds
      no property. */
  datatype Props = Props(offset: Offset, position: string, style: Style)

  const DEFAULT_OFFSET: Offset := Number(10.0)
  const DEFAULT_POSITION: string := "top right"

  /** The properties every toast group style starts from. */
  const BASE: Style := map["position" := Str("fixed"), "width" := Num(500.0)]

  /** React's defaultProps: an absent offset or position takes its default;
      an absent style is the empty record and a given one is kept. */
  function WithDefaults(offset: Option<Offset>, position: Option<string>, style: Option<Style>): (p: Props)
    ensures offset.Some? ==> p.offset == offset.value
    ensures offset.None? ==> p.offset == DEFAULT_OFFSET
    ensures position.Some? ==> p.position == position.value
    ensures position.None? ==> p.position == DEFAULT_POSITION
    ensures style.Some? ==> p.style == style.value
    ensures style.None? ==> p.style == map[]
  {
    Props(if offset.Some? then offset.value else DEFAULT_OFFSET,
          if position.Some? then position.value else DEFAULT_POSITION,
          if style.Some? then style.value else map[])
  }

  /** computeOffset: an array is kept as it is, a number is used for both
      components. */
  function ComputeOffset(offset: Offset): (r: seq<real>)
    ensures offset.Number? ==> |r| == 2 && r[0] == r[1] == offset.x
    ensures offset.List? ==> r == offset.xs
  {
    match offset
    case Number(x) => [x, x]
    case List(xs) => xs
  }

  /** The i-th element of a destructured array: undefined past its end. */
  function Component(xs: seq<real>, i: nat): (v: CssValue)
    ensures v.Num? <==> i < |xs|
    ensures v.Num? ==> v.n == xs[i]
  {
    if i < |xs| then Num(xs[i]) else Undefined
  }

  /** computeStyle: only the 'top right' corner has a style. Its record holds
      the base properties, overridden by the user style, and then `top` set to
      the first offset component and `right` to the second, which no user
      style can override. Every other position yields no style. */
  function ComputeStyle(props: Props): (r: Option<Style>)
    ensures r.Some? <==> props.position == "top right"
    ensures r.Some? ==> r.value.Keys == props.style.Keys + {"position", "width", "top", "right"}
    ensures r.Some? ==>
      var offset := ComputeOffset(props.offset);
      && r.value["top"] == Component(offset, 0)
      && r.value["right"] == Component(offset, 1)
    ensures r.Some? ==>
      forall k :: k in props.style && k != "top" && k != "right" ==> r.value[k] == props.style[k]
    ensures r.Some? && "position" !in props.style ==> r.value["position"] == Str("fixed")
    ensures r.Some? && "width" !in props.style ==> r.value["width"] == Num(500.0)
  {
    if props.position == "top right" then
      var offset := ComputeOffset(props.offset);
      Some((BASE + props.style)["top" := Component(offset, 0)]["right" := Component(offset, 1)])
    else
      None
  }

  /** Normalising an already normalised offset changes nothing. */
  lemma ComputeOffsetIdempotent(offset: Offset)
    ensures ComputeOffset(List(ComputeOffset(offset))) == ComputeOffset(offset)
  {
  }

  /** A number offset moves the group the same distance from the top and
      from the right. */
  lemma NumberOffsetIsSymmetric(x: real, position: string, style: Style)
    requires position == "top right"
    ensures
      var r := ComputeStyle(Props(Number(x), position, style));
      r.Some? && r.value["top"] == r.value["right"] == Num(x)
  {
  }

  /** The user style cannot move the group: two user styles give the same
      `top` and `right`. */
  lemma UserStyleCannotMoveGroup(offset: Offset, s1: Style, s2: Style)
    ensures
      var r1 := ComputeStyle(Props(offset, "top right", s1));
      var r2 := ComputeStyle(Props(offset, "top right", s2));
      && r1.Some? && r2.Some?
      && r1.value["top"] == r2.value["top"]
      && r1.value["right"] == r2.value["right"]
  {
  }

  /** An array offset with fewer than two numbers leaves the missing
      components undefined. */
  lemma ShortOffsetLeavesUndefined(xs: seq<real>, style: Style)
    requires |xs| < 2
    ensures
      var r := ComputeStyle(Props(List(xs), "top right", style));
      && r.Some?
      && r.value["right"] == Undefined
      && (xs == [] ==> r.value["top"] == Undefined)
  {
  }

  /** With every prop left to its default the group sits 10 pixels from the
      top and from the right, fixed, 500 wide. */
  lemma DefaultStyle()
    ensures ComputeStyle(WithDefaults(None, None, None))
         == Some(map["position" := Str("fixed"), "width" := Num(500.0), "top" := Num(10.0), "right" := Num(10.0)])
  {
    var r := ComputeStyle(WithDefaults(None, None, None));
    var expected := map["position" := Str("fixed"), "width" := Num(500.0), "top" := Num(10.0), "right" := Num(10.0)];
    assert r.value.Keys == expected.Keys;
    assert r.value["position"] == Str("fixed") && r.value["width"] == Num(500.0);
    assert r.value["top"] == Num(10.0) && r.value["right"] == Num(10.0);
    assert forall k :: k in expected ==> r.value[k] == expected[k];
    assert r.value == expected;
  }

  /** A position other than 'top right' has no style, whatever the offset and
      user style. */
  lemma OtherCornersUnstyled(props: Props)
    requires props.position in {"top left", "top center", "bottom left", "bottom center", "bottom right"}
    ensures ComputeStyle(props) == None
  {
  }
}
