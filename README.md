# Ellipse collapsible header, modelled in Dafny

A model of the animated header of a portfolio site. The header has two
canvas sketches: an outline sketch and an ASCII-glyph sketch. Each draws
five mirrored pairs of ellipses, and both flatten the ellipses smoothly
while the user scrolls down. The component around them turns scroll
events into a collapse signal and a "dimmed" flag for the navigation
labels. It also maps each label to the page element it scrolls to and
keeps a cursor mask centred on the pointer.

- `ellipse_sketch.dfy`, module `EllipseSketch`. Each sketch is a class
  with a mutable `currentCollapse` field. Its `Draw` method eases that
  value 10% of the way to the target every frame, then runs the
  five-step layout loop. It returns the ellipses it would draw (centre,
  width, height) and the stroke or fill alpha. Without a host element it
  returns `Skipped` and changes nothing. Both loops are proved equal to
  one pure specification, `Layout` / `FrameEllipses`. That proof is how
  the model shows the two duplicated layouts agree. The lemmas cover
  the range of the collapse value, exponential convergence, the width
  clamp, the half-width offsets, the mirrored pairs, and widths that
  never decrease with the index.
- `collapsible_header.dfy`, module `CollapsibleHeader`. The scroll
  listener is a method on a `Header` class with the three pieces of
  state `lastScrollY`, `toCollapse` and `isDimmed`. It is proved equal
  to a pure transition `Step`, and lemmas over `Run` cover whole streams
  of scroll events. This file also models the label-to-id mapping
  (`toLowerCase` followed by `replace(" ", "")`, which removes only the
  first space), the `scrollTo` target choice, the text colour class and
  the mask position.

Numbers are mathematical reals rather than IEEE doubles. `Math.pow(1.7, i)`
is the recursive `Pow`. p5's `lerp(a, b, t)` is `a + (b - a) * t`. The
canvas size, the presence of the host element, the collapse signal, the
scroll offset and the pointer position are parameters.

`scrollTo` has a branch for the id `"footer"`
(app/components/EllipseCollapsibleHeader/index.tsx:83-84). This suggests
that "CONTACT" was meant to scroll the page footer into view, but the
code does not do this: `"CONTACT".toLowerCase().replace(" ", "")` is
`"contact"`, so `scrollTo` looks up the element with id `contact`. The
footer branch cannot be reached from the navigation list. The model
follows the code, and `NavTargets` proves that no label reaches the
footer branch.

## Model

| member | source | states |
|---|---|---|
| `EllipseSketch.Pow` | app/components/EllipseCollapsibleHeader/ellipseSketch.ts:43 | `Math.pow(base, i)` for natural `i`: at least 1 when the base is at least 1, and positive for a positive base |
| `EllipseSketch.PowMonotone` | app/components/EllipseCollapsibleHeader/ellipseSketch.ts:43 | the size factor `1.7^i` never decreases as the index grows |
| `EllipseSketch.Target` | app/components/EllipseCollapsibleHeader/ellipseSketch.ts:30 | the target collapse lies in [0, 0.3]; it is 0.3 exactly when the collapse signal is on and 0 exactly when it is off |
| `EllipseSketch.NextCollapse` | app/components/EllipseCollapsibleHeader/ellipseSketch.ts:29-31 | one frame's ease: the signed distance to the target becomes 0.9 times what it was, the new value lies between the old value and the target (no overshoot), and a value in [0, 0.3] stays in [0, 0.3] |
| `EllipseSketch.Layout` | app/components/EllipseCollapsibleHeader/ellipseSketch.ts:42-55 | for each index, the width is at most `canvasW/2 - 10` and equals it at index 4; below index 4 an unclamped width `100 * 1.7^i` is kept; the width is always either that or the clamp; the offset is half the width, clamped or not; the height is `(canvasH - 10) * (1 - collapse)` |
| `EllipseSketch.WidthsNondecreasing` | app/components/EllipseCollapsibleHeader/ellipseSketch.ts:42-55 | after the clamp the width still never decreases with the index: a later pair is never narrower than an earlier one (the ellipses are not nested, since all share one height and each touches the centre line) |
| `EllipseSketch.PairsAt` | app/components/EllipseCollapsibleHeader/ellipseSketch.ts:42-59 | the first `n` loop rounds draw `2n` ellipses; ellipse `k` is the right (even `k`) or left (odd `k`) member of pair `k/2` |
| `EllipseSketch.Pairs` | app/components/EllipseCollapsibleHeader/ellipseSketch.ts:42-59 | the ellipses drawn by the first `n` rounds of the layout loop: exactly two per round (`2n` in all), right then left member of each pair, as `PairsAt` proves |
| `EllipseSketch.FrameEllipses` | app/components/EllipseCollapsibleHeader/ellipseSketch.ts:42-59 | the ten ellipses of one frame, five rounds of two; what each of them is (shared centre line and height, clamped widths, mirrored half-width offsets) is proved in `FrameShape` |
| `EllipseSketch.FrameShape` | app/components/EllipseCollapsibleHeader/ellipseSketch.ts:33-59 | one frame draws ten ellipses; all have centre y `canvasH/2` and height `(canvasH - 10) * (1 - collapse)`; every width is at most `canvasW/2 - 10` and the last pair is exactly at it; each pair is mirrored at `canvasW/2 ± w/2` and its two ellipses have the same width |
| `EllipseSketch.SettleInRange` | app/components/EllipseCollapsibleHeader/ellipseSketch.ts:11-31 | from the initial 0, or from any value in [0, 0.3], the collapse value stays in [0, 0.3] through any sequence of frames and signals |
| `EllipseSketch.SettleConverges` | app/components/EllipseCollapsibleHeader/ellipseSketch.ts:29-31 | while the signal is constant for `n` frames, the signed distance to the target is scaled by exactly `0.9^n`: exponential smoothing that never crosses the target |
| `EllipseSketch.CollapseFromRest` | app/components/EllipseCollapsibleHeader/ellipseSketch.ts:12-31 | from rest, after `n` collapsing frames the value is exactly `0.3 * (1 - 0.9^n)`, which is strictly below 0.3: it approaches the maximum from below and never reaches it |
| `EllipseSketch.StrokeAlpha` | app/components/EllipseCollapsibleHeader/ellipseSketch.ts:40 | the outline stroke alpha is a valid 0-255 value and is below full opacity exactly while the collapse signal is on (80 then, 255 otherwise); `EllipsesSketch.Draw` ensures every drawn frame uses it |
| `EllipseSketch.FillAlpha` | app/components/EllipseCollapsibleHeader/ellipseSketch.ts:136 | the glyph fill alpha is a valid 0-255 value and is below full opacity exactly while the collapse signal is on (100 then, 255 otherwise); `AsciiEllipsesSketch.Draw` ensures every drawn frame uses it |
| `EllipseSketch.EllipsesSketch.constructor` | app/components/EllipseCollapsibleHeader/ellipseSketch.ts:10-12 | a fresh outline sketch starts at collapse 0, inside the valid range |
| `EllipseSketch.EllipsesSketch.Draw` | app/components/EllipseCollapsibleHeader/ellipseSketch.ts:23-60 | with no host element it draws nothing and leaves the collapse value unchanged; otherwise the collapse value takes one eased step, the range invariant is kept, and the frame is stroke alpha 80 when collapsing (255 otherwise) with exactly the ten ellipses of `FrameEllipses` at the new collapse value |
| `EllipseSketch.AsciiEllipsesSketch.constructor` | app/components/EllipseCollapsibleHeader/ellipseSketch.ts:77-80 | a fresh glyph sketch keeps its own collapse value, starting at 0 |
| `EllipseSketch.AsciiEllipsesSketch.Draw` | app/components/EllipseCollapsibleHeader/ellipseSketch.ts:121-153 | the same no-op without a host and the same eased step; the ellipses passed to the glyph stamper are exactly those of `FrameEllipses`, so the glyph sketch has the outline sketch's geometry; the fill alpha is 100 when collapsing (255 otherwise) |
| `CollapsibleHeader.ScrollingDown` | app/components/EllipseCollapsibleHeader/index.tsx:46-47 | a scroll counts as downward only if the new offset is above both the last offset and 10; an offset not above either leaves it off; `Step` proves the stored signal always equals it |
| `CollapsibleHeader.Step` | app/components/EllipseCollapsibleHeader/index.tsx:44-54 | after any scroll event the stored offset is the new one, and the signal is on iff the offset grew and is past 10; an offset of at most 10, or not above the last one, leaves the signal off; the dimmed flag is rewritten (to the signal) only when the signal changes, and otherwise keeps its value |
| `CollapsibleHeader.DimmedTracksSignal` | app/components/EllipseCollapsibleHeader/index.tsx:26-52 | if the dimmed flag agrees with the signal, as it does at mount, it agrees after every stream of scroll events |
| `CollapsibleHeader.RunEndsWithLastEvent` | app/components/EllipseCollapsibleHeader/index.tsx:45-53 | after a non-empty stream of scroll events the stored offset is the last one, and the signal depends only on the last two offsets |
| `CollapsibleHeader.Header.constructor` | app/components/EllipseCollapsibleHeader/index.tsx:23-29 | the header mounts with offset 0, signal off and labels undimmed |
| `CollapsibleHeader.Header.HandleScroll` | app/components/EllipseCollapsibleHeader/index.tsx:44-54 | the listener changes the three fields exactly as `Step` does, and it keeps the agreement between the dimmed flag and the signal |
| `CollapsibleHeader.ToLower` | app/components/EllipseCollapsibleHeader/index.tsx:102 | `toLowerCase` keeps the length, maps each character by itself, and leaves no upper-case ASCII letter |
| `CollapsibleHeader.RemoveFirstSpace` | app/components/EllipseCollapsibleHeader/index.tsx:102 | `replace(" ", "")` leaves a string without spaces unchanged, shortens a string with a space by exactly one character, and introduces no character that was not there |
| `CollapsibleHeader.RemoveFirstSpaceAt` | app/components/EllipseCollapsibleHeader/index.tsx:102 | only the first space is removed: `a + " " + b` becomes `a + b` when `a` has no space, whatever `b` holds |
| `CollapsibleHeader.NavId` | app/components/EllipseCollapsibleHeader/index.tsx:102 | the id of a label is its lower-cased form with the first space removed: as long as the label when it has no space, one shorter when it has one, and free of upper-case ASCII letters; the ids of the three labels are proved in `NavTargets` |
| `CollapsibleHeader.NavIdAboutMe` | app/components/EllipseCollapsibleHeader/index.tsx:98-102 | the label "ABOUT ME" maps to the id "aboutme" |
| `CollapsibleHeader.NavIdWorks` | app/components/EllipseCollapsibleHeader/index.tsx:98-102 | the label "WORKS" maps to the id "works" |
| `CollapsibleHeader.NavIdContact` | app/components/EllipseCollapsibleHeader/index.tsx:98-102 | the label "CONTACT" maps to the id "contact" |
| `CollapsibleHeader.ScrollTargetOf` | app/components/EllipseCollapsibleHeader/index.tsx:81-87 | `scrollTo` picks the page footer exactly for the id "footer", and otherwise looks up the element with that same id |
| `CollapsibleHeader.NavTargets` | app/components/EllipseCollapsibleHeader/index.tsx:81-102 | the three labels scroll to the elements "aboutme", "works" and "contact", and none reaches the footer branch |
| `CollapsibleHeader.TextClasses` | app/components/EllipseCollapsibleHeader/index.tsx:79 | the class is "text-black/40" exactly when dimmed, and "text-black" otherwise |
| `CollapsibleHeader.LabelsFadeWithSignal` | app/components/EllipseCollapsibleHeader/index.tsx:79 | from mount on, after any stream of scroll events, the labels are faded exactly while the collapse signal is on |
| `CollapsibleHeader.MaskPositionFor` | app/components/EllipseCollapsibleHeader/index.tsx:66-73 | the mask is moved only when the mask element exists, and then the pointer `(x, y)` sits at the centre of the 100-unit mask, whose corner is at `(x - 50, y - 50)` |

## Left out

- p5 canvas creation, parenting, the CSS classes, `clear`, `noFill`/`noStroke` and the actual `ellipse`/`text` calls are left out: they are calls into a rendering library. `Draw` returns the ellipses and the alpha instead.
- `windowResized` and `resizeCanvas` are left out: they only hand the host size to the library. The canvas size is a parameter of `Draw`.
- Glyph placement inside the ASCII sketch's per-ellipse routine (`drawAsciiEllipse`) is left out. It uses a perimeter approximation with `sqrt`, and `floor`, `cos`, `sin` and `p.random`: floating-point numerics and randomness. The model stops at the centre and size passed to that routine.
- Frame rates, fonts, text size and text alignment are rendering settings and are not modelled.
- The async dynamic import of p5, instance construction, the `remove()` teardown, and adding or removing the scroll listener are left out. They are lifecycle I/O, and the race between the late import and unmount is a concurrency matter.
- DOM lookups, `scrollIntoView` (including a missing element), the formatting of the mask position as a CSS string, `useMousePosition` (app/helpers/useMousePosition is not part of this model), framer-motion variants and the other JSX classes are not modelled.
- app/page.tsx only composes the page and has no logic.
- `Step` and `Header.HandleScroll` set `isDimmed` at once. In the component, `setIsDimmed` is a React state update that takes effect at the next render. No contract depends on that timing.
- All members: IEEE double rounding is not modelled. `Math.pow`, the divisions and the lerp are exact on reals.
- `ToLower`: only ASCII letters are lower-cased. JavaScript's full Unicode case mapping is not modelled, and every label is ASCII.
