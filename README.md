# Popup placement engine of Semantic-UI-React, in Dafny

This project models how a Semantic-UI-React `Popup` decides where to render.

- **Placement geometry.** `computePopupStyle` turns the trigger's rectangle, the popup's size and one of the eight placement names of `POSITIONS` into a style record. The record has `position: 'absolute'` and four edges, each a number of pixels or `'auto'`.
- **Offset.** `computeHorizontalOffset`, `computeVerticalOffset` and `computeOffset` push that record by the `offset` prop, on whichever edge of each axis is numeric.
- **Viewport check.** `isStyleInViewport` resolves a numeric `right`/`bottom` into a left/top position. It then checks that the popup lies inside the scrolled viewport.
- **Fallback.** `setPopupStyle` tries the preferred placement first. It then walks `POSITIONS` without the preferred placement, followed by the preferred one, and keeps the first placement whose style fits.
- **Portal props.** `getPortalProps` maps the `on` triggers and `hoverable` to the Portal's open/close flags and delays.
- **Toast group.** `computeOffset` and `computeStyle` normalise a ToastGroup's offset and build its fixed-position style for the 'top right' corner.

## Files

- `layout.dfy` (module `Layout`) holds the shared values:
  - rectangles and the viewport measurements;
  - the `offset` prop;
  - an edge value: `Auto`, `Px(n)`, or `NaN` for what JavaScript yields from `'auto' - n` or `n - undefined`;
  - JavaScript `-` and `+` on edges;
  - `Math.round`.
- `style_in_viewport.dfy` (module `StyleInViewport`) models `src/lib/isStyleInViewport.js`.
- `popup.dfy` (module `Popup`) models the placement, offset, fallback and portal code of `src/modules/Popup/Popup.js`. It includes a `Popup` class whose `SetPopupStyle` method runs the source's loop.
- `toast_group.dfy` (module `ToastGroup`) models `src/addons/Toast/ToastGroup.js`.

## How the model is built

- **Browser globals are parameters.** `document.documentElement.clientWidth/clientHeight` and `window.pageXOffset/pageYOffset` become a `Viewport` parameter.
- **Coordinates are `real`.** `Math.round` is `floor(x + 1/2)`. The geometry lemmas state positions to within the half pixel that rounding costs, with a tie going the way `Math.round` sends it.
- **Placement names.** They are the datatype `Position`. `_.includes(name, 'right')` and its siblings become the predicates `HasRight`, `HasLeft`, `HasTop` and `HasBottom`.
- **The fallback walk is stated once, generically.** It is written over two function values:
  - the style of a placement;
  - the viewport test.

  `SetPopupStyle` instantiates them with `ComputePopupStyle` and `IsStyleInViewport` for the measured scene. `ResolvePosition` is that instantiation as a function.
- **The loop is in `FallBack`.** `Popup.SetPopupStyle` keeps the source's early return. It builds the walk (`Candidates`) and hands the loop to `FallBack`. `FallBack` is proved to settle on `Walk`, the specification of the loop.
- **`computePopupStyle` and `isStyleInViewport` are functions.** Each mutates only a local record it has just created, so the result is a function of the inputs.
- **`getPortalProps` is a function too.** It is written as a chain of record updates in the source's order, so the later `mouseLeaveDelay` of `'hover'` overrides the earlier one of `hoverable`.

Properties stated by the types or the loop rather than by a lemma:

- The settled placement is always one of `POSITIONS`, because `Position` has exactly those eight values.
- The loop makes at most `|positions|` = 8 further tries. Its `decreases` clause proves this.

### Notes on the code's behaviour

- **Number of placements.** `POSITIONS` (src/modules/Popup/Popup.js:27-36) has eight placements, so the walk tries at most eight.
- **A scalar Popup offset.** A number offset becomes the pair `[offset, 0]` (src/modules/Popup/Popup.js:167), so it pushes horizontally only. See `NumberOffsetIsHorizontal`.
- **Direction of the push.** A positive horizontal offset is subtracted from a numeric `right` (src/modules/Popup/Popup.js:156), so on "top right" the popup moves right. See `OffsetMovesElement`.
- **Empty viewport.** `isStyleInViewport` has no special case for a 0x0 viewport: a zero-size element at the scroll offset passes every bound. See `EmptyViewportCanFit`.
- **Unmeasured elements.** setPopupStyle returns early only when `coords` or `popupCoords` is absent (src/modules/Popup/Popup.js:219). A zero-size rectangle is checked like any other.

## Model

| member | source | states |
|---|---|---|
| Layout.Minus | src/modules/Popup/Popup.js:156-157 | JavaScript `e - d` on an edge is a number exactly when `e` is a number and `d` is defined, and then adding `d` back gives `e`; otherwise NaN |
| Layout.Plus | src/modules/Popup/Popup.js:161-162 | JavaScript `e + d` on a numeric or NaN edge is a number exactly when both are defined, and then subtracting `d` gives `e`; otherwise NaN |
| Layout.Edge.IsNumber | src/lib/isStyleInViewport.js:20-21 | `_.isNumber` holds of numbers and of NaN, and not of 'auto' |
| Layout.Round | src/modules/Popup/Popup.js:185 | `Math.round` returns an integer within half a unit of its argument, halves rounded up |
| StyleInViewport.ElementLeft | src/lib/isStyleInViewport.js:14-20 | a numeric `right` overrides `left`: the element then ends `right` pixels short of the viewport's right side; with `right` 'auto' the style's `left` is kept; the resolved left is a number exactly when one of these gives a number |
| StyleInViewport.ElementTop | src/lib/isStyleInViewport.js:14-21 | a numeric `bottom` overrides `top`: the element then ends `bottom` pixels short of the viewport's bottom side; with `bottom` 'auto' the style's `top` is kept; the resolved top is a number exactly when one of these gives a number |
| StyleInViewport.Below | src/lib/isStyleInViewport.js:24-28 | `edge < bound` holds only of a numeric edge, and then exactly when it is less; NaN and 'auto' compare false |
| StyleInViewport.Beyond | src/lib/isStyleInViewport.js:26-30 | `edge + size > bound` holds only of a numeric edge, and then exactly when the far side passes the bound |
| StyleInViewport.IsStyleInViewport | src/lib/isStyleInViewport.js:12-33 | true exactly when every numeric resolved edge keeps the element inside the scrolled viewport; with both edges numeric, true exactly when the rectangle lies inside it; NaN and 'auto' pass, as JavaScript comparisons with them are false |
| StyleInViewport.RightOverridesLeft | src/lib/isStyleInViewport.js:20 | with a numeric `right`, the style's `left` does not affect the verdict |
| StyleInViewport.BottomOverridesTop | src/lib/isStyleInViewport.js:21 | with a numeric `bottom`, the style's `top` does not affect the verdict |
| StyleInViewport.SizeOnlyFromCoordinates | src/lib/isStyleInViewport.js:13-18 | only the width and height of the coordinates are read |
| StyleInViewport.OversizedNeverFits | src/lib/isStyleInViewport.js:23-32 | an element wider or taller than the viewport never fits once its edges are numeric |
| StyleInViewport.EmptyViewportCanFit | src/lib/isStyleInViewport.js:23-32 | a zero-size element at the origin of a 0x0 viewport fits |
| Popup.Position.HasLeft | src/modules/Popup/Popup.js:187-211 | `_.includes(name, 'left')`; a "left" name with no vertical word is "left center" |
| Popup.Position.HasRight | src/modules/Popup/Popup.js:184-208 | `_.includes(name, 'right')`; no name holds both "left" and "right", and one with neither is "top center" or "bottom center" |
| Popup.Position.HasTop | src/modules/Popup/Popup.js:196 | `_.includes(name, 'top')`; neither side placement holds it |
| Popup.Position.HasBottom | src/modules/Popup/Popup.js:196-202 | `_.includes(name, 'bottom')`; no name holds both "top" and "bottom", and one with neither is "left center" or "right center" |
| Popup.Index | src/modules/Popup/Popup.js:27-36 | every placement occurs in POSITIONS exactly once |
| Popup.HorizontalOffset | src/modules/Popup/Popup.js:167 | a number offset is its own horizontal component; an array's is its first element, undefined when the array is empty |
| Popup.VerticalOffset | src/modules/Popup/Popup.js:167 | a number offset has vertical component 0; an array's is its second element, undefined when it has fewer than two |
| Popup.ComputeHorizontalOffset | src/modules/Popup/Popup.js:155-158 | the push goes to `right` when it is a number, else to `left`; the pushed edge becomes its value minus the offset, or NaN when either is not a number; the other edge is unchanged |
| Popup.ComputeVerticalOffset | src/modules/Popup/Popup.js:160-163 | the push goes to `top` when it is a number, else to `bottom`; the pushed edge becomes its value plus the offset, or NaN when the edge is NaN or the offset is undefined; the other edge is unchanged |
| Popup.ComputeOffset | src/modules/Popup/Popup.js:165-173 | on each axis the edge that is not pushed is unchanged; with both offset components defined, a style with one numeric edge per axis keeps that shape, its horizontal edge moved by minus the first component and its vertical edge by plus the second |
| Popup.OffsetMovesElement | src/modules/Popup/Popup.js:155-173 | with one numeric edge per axis, an offset `[h, v]` moves the popup, as the viewport check places it, right by `h` when held by `right` and left otherwise, and down by `v` when held by `top` and up otherwise |
| Popup.OffsetUndone | src/modules/Popup/Popup.js:155-173 | pushing by `[h, v]` and then by `[-h, -v]` restores the edges |
| Popup.NumberOffsetIsHorizontal | src/modules/Popup/Popup.js:167 | a number offset is the pair `[offset, 0]`: the vertical edges are not moved |
| Popup.BaseStyle | src/modules/Popup/Popup.js:175-213 | the unpushed style is absolute with one numeric edge per axis: `right` exactly for names containing "right", `bottom` exactly for names containing "top"; every edge is rounded to a whole pixel by `Math.round`, and a "left/right center" placement then takes the popup width and the 8px gap off its rounded horizontal edge |
| Popup.ComputePopupStyle | src/modules/Popup/Popup.js:175-216 | the style stays absolute and has exactly one non-'auto' edge per axis; both are numbers when both offset components are defined |
| Popup.HorizontalPlacement | src/modules/Popup/Popup.js:184-212 | rounded as `Math.round` rounds (a half pixel goes left for the "right" and "right center" placements, whose `right` is rounded, and right otherwise), the popup is level with the trigger's left or right edge for a corner, centred on it for "top/bottom center", or 8px beside it for "left/right center", then pushed by the horizontal offset |
| Popup.VerticalPlacement | src/modules/Popup/Popup.js:196-205 | rounded as `Math.round` rounds (a half pixel goes up for the "top" placements, whose `bottom` is rounded, and down otherwise), the popup rests on the trigger's top edge, hangs from its bottom edge, or is centred on it, then pushed by the vertical offset |
| Popup.Without | src/modules/Popup/Popup.js:225 | `_.without` leaves no occurrence of the removed placement, keeps every other placement present, and adds none |
| Popup.WithoutMultiset | src/modules/Popup/Popup.js:225 | `_.without` removes every occurrence of the placement and keeps every other one with its multiplicity |
| Popup.Candidates | src/modules/Popup/Popup.js:225 | the walk has eight entries and ends with the preferred placement |
| Popup.CandidatesOrder | src/modules/Popup/Popup.js:225 | the walk is a permutation of POSITIONS: the other placements in canonical order, then the preferred one |
| Popup.CandidatesComplete | src/modules/Popup/Popup.js:225 | every placement is in the walk |
| Popup.FirstFitting | src/modules/Popup/Popup.js:226-229 | the candidate picked fits or is the last one |
| Popup.FirstFittingAt | src/modules/Popup/Popup.js:226-229 | the pick is index `j` when all earlier candidates fail and `j` fits or is last |
| Popup.FirstFittingFits | src/modules/Popup/Popup.js:226-229 | if any remaining candidate fits, the one picked fits |
| Popup.FirstFittingIsFirst | src/modules/Popup/Popup.js:226-229 | the candidate picked is preceded only by candidates that fail |
| Popup.Walk | src/modules/Popup/Popup.js:220-229 | a fitting preferred placement is kept; any other result fits |
| Popup.WalkFitsWhenSomethingFits | src/modules/Popup/Popup.js:226-229 | if some candidate fits, the placement settled on fits |
| Popup.WalkFallsBackToPreferred | src/modules/Popup/Popup.js:226-229 | if no candidate fits, the preferred placement is kept |
| Popup.WalkSkipsOnlyMisfits | src/modules/Popup/Popup.js:220-229 | a placement other than the preferred one is chosen only if the preferred one and every earlier candidate fail, and it fits |
| Popup.ResolvePosition | src/modules/Popup/Popup.js:218-229 | in a scene, a fitting preferred placement is kept and any other result fits |
| Popup.ResolveFitsWhenSomethingFits | src/modules/Popup/Popup.js:220-229 | if any placement fits the scene, the one settled on fits |
| Popup.ResolveFallsBackToPreferred | src/modules/Popup/Popup.js:220-229 | if no placement fits the scene, the preferred one is kept |
| Popup.ResolveSkipsOnlyMisfits | src/modules/Popup/Popup.js:220-229 | the preferred placement is abandoned only for a fitting one, after every earlier candidate failed |
| Popup.FallBack | src/modules/Popup/Popup.js:220-229 | the loop ends on the placement the walk specifies and with that placement's style |
| Popup.Popup.constructor | src/modules/Popup/Popup.js:266-285 | a new popup has its props, no measured rectangles and no style or placement in its state |
| Popup.Popup.SetPopupStyle | src/modules/Popup/Popup.js:218-234 | does nothing while a rectangle is unmeasured; otherwise stores the placement settled on for the scene and its style, and changes nothing else |
| Popup.NormalizeOn | src/modules/Popup/Popup.js:240 | the normalised array holds exactly the one trigger, or the listed ones |
| Popup.GetPortalProps | src/modules/Popup/Popup.js:236-264 | "click" sets three flags, "focus" two, "hover" the mouse-enter flags and a 50ms enter delay; `hoverable` closes on portal mouse leave after 300ms unless "hover" sets 70ms; keys never set stay absent |
| Popup.SingleTriggerIsArray | src/modules/Popup/Popup.js:240 | a single trigger behaves as the one-element array |
| Popup.PortalPropsDependOnTriggerSet | src/modules/Popup/Popup.js:240-261 | only which triggers are listed matters, not their order or repetition |
| Popup.DefaultPortalProps | src/modules/Popup/Popup.js:137-143 | the default `on: 'hover'` opens on mouse enter after 50ms and closes 70ms after mouse leave |
| Popup.TopLeftScenario | src/modules/Popup/Popup.js:175-229 | a 50x20 trigger at (100, 100) with an 80x30 popup in a 1000x800 viewport: "top left" gives left 100, bottom 700, resolved top 70, and is kept |
| Popup.CentredTieRoundsUp | src/modules/Popup/Popup.js:190-193 | an 81-wide popup centred over a 50-wide trigger at x = 100 starts at 85: the half of 84.5 is rounded up |
| Popup.NarrowViewportFits | src/modules/Popup/Popup.js:175-216 | in a viewport 150 wide, "top left" overflows on the right and "top right" fits |
| Popup.NarrowViewportScenario | src/modules/Popup/Popup.js:218-229 | there the popup falls back from "top left" to "top right" |
| ToastGroup.WithDefaults | src/addons/Toast/ToastGroup.js:55-58 | an absent offset is 10, an absent position 'top right' and an absent style the empty record; given props are kept |
| ToastGroup.ComputeOffset | src/addons/Toast/ToastGroup.js:60-64 | a number becomes the pair of itself twice; an array is kept |
| ToastGroup.Component | src/addons/Toast/ToastGroup.js:68 | destructuring yields the element when the index is in range and undefined past the end |
| ToastGroup.ComputeStyle | src/addons/Toast/ToastGroup.js:66-83 | a style exists exactly for 'top right'; its keys are the user's plus position, width, top and right; `top` and `right` are the offset's first and second components whatever the user style says; other user properties win over the base `position: 'fixed'` and `width: 500` |
| ToastGroup.ComputeOffsetIdempotent | src/addons/Toast/ToastGroup.js:63 | normalising a normalised offset changes nothing |
| ToastGroup.NumberOffsetIsSymmetric | src/addons/Toast/ToastGroup.js:63-80 | a number offset puts the group the same distance from the top and the right |
| ToastGroup.UserStyleCannotMoveGroup | src/addons/Toast/ToastGroup.js:76-81 | any two user styles give the same `top` and `right` |
| ToastGroup.ShortOffsetLeavesUndefined | src/addons/Toast/ToastGroup.js:68-80 | an array offset with fewer than two numbers leaves the missing components undefined |
| ToastGroup.DefaultStyle | src/addons/Toast/ToastGroup.js:55-83 | with all defaults the style is fixed, 500 wide, 10 from the top and 10 from the right |
| ToastGroup.OtherCornersUnstyled | src/addons/Toast/ToastGroup.js:75-83 | every other corner gets no style |

## Left out

- Server-side rendering: the early return of computePopupStyle when there is no browser (src/modules/Popup/Popup.js:179) is not modelled. The window and document measurements are always given.
- The `px` suffix that setPopupStyle appends to numeric values (src/modules/Popup/Popup.js:232) is not modelled: `Px(n)` stands for `` `${n}px` ``, and 'auto' is kept.
- The default Popup `offset: '0,0'` is a string (src/modules/Popup/Popup.js:139). The model takes a number or an array of numbers, so it does not capture what that default does. Destructuring the string yields `'0'` and `','`. `top + ','` or `bottom + ','` (src/modules/Popup/Popup.js:161-162) then turns the numeric vertical edge into a string such as `"700,"`. isStyleInViewport never checks the vertical bounds of such a style, and the px step (src/modules/Popup/Popup.js:232) leaves the string in it.
- `Layout.Plus` / `Popup.ComputeVerticalOffset`: on an 'auto' edge the model yields NaN, where JavaScript's `'auto' + n` concatenates a string. This is reachable only for a style whose two vertical edges are both 'auto', which computePopupStyle never builds.
- Offset arrays are arrays of numbers. Non-numeric elements are not modelled.
- Placement names outside POSITIONS and `on` values other than 'hover', 'click' and 'focus' are not modelled, because the prop types reject them.
- Floating point: coordinates are exact reals, so rounding is exact and there is no precision loss.
- The Popper.js integration (src/modules/Popup/Popup.js:266-376) is a foreign library call.
- React lifecycle, rendering and portal wiring are framework glue. So is the `setState` call, which the model treats as a direct write of `style` and `position`.
- DOM measurement (`getBoundingClientRect` in handleOpen and handlePopupRef), scroll handlers, timers and event subscriptions are I/O. The model takes the measured rectangles as given field values.
- The key order of JavaScript objects is not modelled: style records are maps.
- Breadcrumb, BreadcrumbPair and Toast are prop-to-element mappers over code that is not part of this model. config.js, the test bundles and the docs are not part of this model either.
