# Valentine's gallery layout engine in Dafny

This project models the layout engine of a scrollable Valentine's gallery of flip cards, together with the two small state machines beside it.

- **Column zones and positions** (`Positions`). The horizontal band is one zone, or two zones 15% either side of its midpoint. Each card gets a row and a column from its index. Its x is drawn uniformly in its column's zone and its y is `row * verticalSpacing + 140`.
- **Remapping** (`Positions.RemapPositions`). A change of column count regenerates every position. Otherwise each card keeps its relative place inside its zone: its x is normalised against the old zone (clamped to [0,1], with span fallback 1) and placed in the new zone.
- **Breakpoints** (`ResponsiveLayout`). The viewport width selects one of six fixed layouts. The resize updater keeps the previous state object when all six fields are unchanged.
- **Connecting path** (`CardPath`). It is a move-to at the first card centre followed by one cubic per consecutive pair. Both control points of a cubic sit at the vertical midpoint, one under each end point.
- **Particle burst** (`EmojiAnimation`). The particle count is bounded by `max(8, ⌊15w/250⌋)` and `max(12, ⌊26w/250⌋)`. Spawn points lie on four bands around the card edges. A burst is scheduled only on a false→true edge of the trigger.
- **Flip card** (`FlipCard`). The card has one boolean toggle, and that boolean is the particle trigger.
- **Top-level view** (`App`). Positions are remapped only when one of the four position options changed. The container height is derived from the last card.

Modelling choices:

- Every `Math.random()` call becomes an explicit real parameter. Lemmas that need the bounds assume it lies in [0,1).
- Card coordinates are exact `real`s. Layout fields and viewport widths are `int`s.
- `getColumnRanges` returns two zones for every column count other than 1, and `generatePositions` reads `ranges[col]`. No caller passes more than 2 columns, because `computeLayout` returns 1 or 2. With 3 or more columns the code throws as soon as a card reaches column 2, which happens once there are at least 3 cards. The position functions (`ZoneOf`, `GeneratePositions`, `RemapPositions`, `App.MapPositions`) therefore require `columns <= 2`. A column count of 0 or less is well-defined in the code (column 0, row = index) and is modelled.
- The code has no same-row arc and no alternating sweep in the path: every segment is the same vertical-midpoint cubic. A card shows one image (`imageSrc`), with no image cycling. The breakpoints are written as an if-chain. The six rows listed in the hook's doc comment are modelled as data (`DOCUMENTED_BREAKPOINTS`), and the if-chain is proved equal to them. The doc comment gives no column count, so the `columns` values of those rows are taken from the if-chain and agree with it by construction. Sizes, spacings and bands are checked against the comment.
- A generated x lies in [min, max) when min < max, and equals min when min = max. Both facts are proved.
- When React re-renders because the layout state object changed, the model shows it as the `replacements` counter of `LayoutHook`.
- The two effect timers are modelled as pending flags. Running the effect again first runs the previous run's clean-up, if that run returned one. The clean-up cancels both timers. A timer that fires after being cancelled does nothing.

## Model

| member | source | states |
|---|---|---|
| `Random.Rand` | src/components/EmojiAnimation.tsx:17-20 | For r in [0,1) and min ≤ max, the draw lies in [min, max], and below max when min < max. |
| `Positions.ColumnRanges` | src/generatePositions.ts:22-31 | There is one zone for columns = 1 and two zones otherwise. The zones start at xMin and end at xMax. Two zones have equal width (xMax−xMin)/2 − 15 and are separated by a gap of 30. |
| `Positions.ZonesNonEmpty` | src/generatePositions.ts:22-31 | Every zone has min ≤ max iff xMin ≤ xMax for one column, or iff xMax − xMin ≥ 30 for two columns. |
| `Positions.ColumnOf` | src/generatePositions.ts:46 | With several columns, the column is less than the column count. Otherwise it is 0. |
| `Positions.RowOf` | src/generatePositions.ts:47 | row × stride + column = index, where stride is the column count (or 1), so index ↦ (row, column) is a decomposition. |
| `Positions.ZoneOf` | src/generatePositions.ts:48 | A card's zone is one of the zones `getColumnRanges` returns. |
| `Positions.GeneratePositions` | src/generatePositions.ts:38-54 | Exactly `count` positions. Each y is its row's height. With draws in [0,1), each x lies in its column's non-empty zone, and below its max when the zone has positive width. |
| `Positions.GenerateInLayout` | src/generatePositions.ts:45-53 | With ordered zones and genuine draws, the generated list is in the layout: every x is in its zone and every y is at its row. |
| `Positions.PairsShareRow` | src/generatePositions.ts:46-51 | In two-column mode, cards 2k and 2k+1 get the same y. |
| `Positions.RowMonotone` | src/generatePositions.ts:47 | The row never decreases as the index grows. |
| `Positions.YIncreasesWithRow` | src/generatePositions.ts:51 | With spacing > 0, y strictly increases with the row. |
| `Positions.YMonotoneInIndex` | src/generatePositions.ts:45-53 | With spacing ≥ 0, y never decreases along the card order. |
| `Positions.Normalize` | src/generatePositions.ts:80-82 | The fraction is clamped to [0,1], and the division never has a zero divisor. Inside a proper zone it inverts placement: t·width + min = x. Inside a zero-width zone it is 0. |
| `Positions.Denormalize` | src/generatePositions.ts:84 | A fraction in [0,1] lands in a non-empty zone. In a proper zone, normalising the result gives back the clamped fraction. |
| `Positions.RemapPositions` | src/generatePositions.ts:62-88 | Length is preserved. A change of column count gives exactly `generatePositions(existing.length, newOptions)`. Every y is at its row under the new spacing. With the same column count, every x lies in its non-empty new zone. Each card also keeps its relative place: its normalised fraction in the new proper zone equals its fraction in the old zone. |
| `Positions.RemapInLayout` | src/generatePositions.ts:67-87 | With ordered new zones and genuine draws, the remapped list is in the new layout on either branch. |
| `Positions.RemapSameOptions` | src/generatePositions.ts:80-86 | Remapping to identical options leaves every in-zone x unchanged. A list already in the layout is returned as it was. |
| `Positions.RemapRoundTrip` | src/generatePositions.ts:75-87 | Remapping a → b → a restores any list in a's layout, when the column counts match and all zones have positive width. |
| `ResponsiveLayout.ThreeByFourHeight` | src/useResponsiveLayout.ts:12-25 | The rounded 4/3 height is within 1/3 of cardWidth·4/3 (3h and 4w differ by at most 1). |
| `ResponsiveLayout.ComputeLayout` | src/useResponsiveLayout.ts:26-85 | columns is 1 below width 1024 and 2 from 1024 up. cardHeight is cardWidth·4/3 rounded. All sizes are positive and 0 < xMin < xMax < 100. Two-column bands have xMax − xMin ≥ 30. |
| `ResponsiveLayout.Band` | src/useResponsiveLayout.ts:27-77 | Every width falls in one of six bands. |
| `ResponsiveLayout.LayoutConstantOnBands` | src/useResponsiveLayout.ts:26-85 | Two widths get the same layout iff they lie in the same band: [0,480), [480,640), [640,768), [768,1024), [1024,1440) or [1440,∞). |
| `ResponsiveLayout.CardWidthMonotone` | src/useResponsiveLayout.ts:26-85 | cardWidth never decreases as the viewport widens. |
| `ResponsiveLayout.Lookup` | src/useResponsiveLayout.ts:18-25 | A lookup always returns a layout that appears in the table. |
| `ResponsiveLayout.ComputeLayoutMatchesTable` | src/useResponsiveLayout.ts:18-85 | The if-chain agrees at every width with the six rows of the doc comment's table (size, spacing and band). The rows' column counts are taken from the if-chain. |
| `ResponsiveLayout.ResizeUpdater` | src/useResponsiveLayout.ts:97-111 | The updater keeps `prev` iff all six fields equal the new computation. Either way the resulting state is the layout for the width. |
| `ResponsiveLayout.ResizeIdempotent` | src/useResponsiveLayout.ts:97-111 | Applying the updater a second time for the same width keeps the state. |
| `ResponsiveLayout.LayoutHook.constructor` | src/useResponsiveLayout.ts:92-94 | The initial state is the layout for the mount-time width. |
| `ResponsiveLayout.LayoutHook.HandleResize` | src/useResponsiveLayout.ts:96-112 | The state becomes the layout for the width. The state object is replaced, causing a re-render, exactly when that layout differs. |
| `CardPath.CurveStaysInBox` | src/components/CardPath.tsx:29-35 | Both control points lie in the box spanned by the segment's end points. |
| `CardPath.BuildPath` | src/components/CardPath.tsx:15-39 | No centres give an empty path and one centre gives a single move-to. n centres give a move-to at centre 0 followed by n−1 cubics. The path passes through exactly the centres, in order. |
| `CardPath.CardPath` | src/components/CardPath.tsx:41-55 | Nothing is drawn for fewer than two positions. Otherwise the path starts at the first card's centre and passes through every card centre in order. |
| `EmojiAnimation.EdgeIndexInRange` | src/components/EmojiAnimation.tsx:27-38 | For r in [0,1), ⌊4r⌋ is in {0..3}, so the `default` branch is unreachable. |
| `EmojiAnimation.RandomEdgePosition` | src/components/EmojiAnimation.tsx:26-40 | With genuine draws and a non-negative card size, the point lies on one of the four edge bands, inside [−10, w+10] × [−10, h+10]. |
| `EmojiAnimation.CountBounds` | src/components/EmojiAnimation.tsx:51-54 | 8 ≤ minCount ≤ maxCount and 12 ≤ maxCount at every width. Both bounds grow with the width. |
| `EmojiAnimation.CountBoundsExamples` | src/components/EmojiAnimation.tsx:51-54 | Width 250 gives [15, 26] and width 180 gives [10, 18]. |
| `EmojiAnimation.ParticleCount` | src/components/EmojiAnimation.tsx:55 | For r in [0,1) the count lies in [minCount, maxCount]. |
| `EmojiAnimation.SpawnParticles` | src/components/EmojiAnimation.tsx:45-87 | The burst has `count` particles, with ids 0..count−1 in order. Each carries the input emoji and its edge-band spawn point. |
| `EmojiAnimation.RunEffect` | src/components/EmojiAnimation.tsx:94-118 | After each run prevTrigger equals the trigger. animationKey grows by one exactly on a false→true edge. Both timers are pending exactly after such an edge. |
| `EmojiAnimation.NoBurstWithoutRisingEdge` | src/components/EmojiAnimation.tsx:96-117 | Running the effect again with an unchanged trigger starts nothing and cancels the pending timers. |
| `EmojiAnimation.EmojiAnimation.constructor` | src/components/EmojiAnimation.tsx:90-92 | The component starts with no particles, prevTrigger false and key 0. |
| `EmojiAnimation.EmojiAnimation.Effect` | src/components/EmojiAnimation.tsx:94-118 | The refs and timers follow `RunEffect`. The returned flag is the false→true edge. The particles are untouched. |
| `EmojiAnimation.EmojiAnimation.SpawnTimerFires` | src/components/EmojiAnimation.tsx:100-102 | A pending spawn replaces the particle set with a fresh burst. A cancelled spawn does nothing. |
| `EmojiAnimation.EmojiAnimation.CleanupTimerFires` | src/components/EmojiAnimation.tsx:106-108 | A pending clean-up clears the particles. A cancelled clean-up does nothing. |
| `FlipCard.AltText` | src/components/FlipCard.tsx:39 | The card's alt is used when present, and exactly "Valentine photo" when it is absent. The text is empty only if the card supplies an empty alt. |
| `FlipCard.TwoClicksRestoreFace` | src/components/FlipCard.tsx:15-17 | Two clicks restore the flag. |
| `FlipCard.ClickSession` | src/components/FlipCard.tsx:13-17 | After n clicks the card is flipped iff n is odd. The animation's prevTrigger equals the flag, and the animation key is ⌈n/2⌉. |
| `FlipCard.BurstOnOddClicks` | src/components/FlipCard.tsx:46-51 | Since the trigger is `flipped`, click n starts a burst exactly when n is odd. |
| `FlipCard.FlipCard.constructor` | src/components/FlipCard.tsx:13 | `flipped` starts false and the animation starts fresh. |
| `FlipCard.FlipCard.HandleClick` | src/components/FlipCard.tsx:15-17 | A click negates `flipped`. The animation runs with the new flag, and a burst starts iff the card is now flipped. |
| `App.LayoutZonesProper` | src/useResponsiveLayout.ts:26-85 | Every layout of the breakpoint table gives column zones of positive width. |
| `App.CardSizeIrrelevant` | src/App.tsx:17-20 | Layouts that differ only in card size give the same options. |
| `App.MapPositions` | src/App.tsx:29-43 | If the four options equal the remembered ones, the positions are returned unchanged. Otherwise the result is `remapPositions(positions, prev, current)` and becomes the new state with `prevOptions = current`. Length is preserved either way. |
| `App.MapPositionsStable` | src/App.tsx:38-43 | Re-evaluating the gate with the same options returns the remapped list and state unchanged. |
| `App.CardSizeChangeKeepsPositions` | src/App.tsx:17-35 | A change of cardWidth or cardHeight alone never remaps. |
| `App.MapPositionsInLayout` | src/App.tsx:29-43 | For any viewport width, the gate hands out positions in the current layout and keeps its state in the layout it remembers. |
| `App.ContainerHoldsEveryCard` | src/App.tsx:45-49 | In a layout with spacing ≥ 0, every card ends at least 200 px above the container's bottom. |
| `App.App.constructor` | src/App.tsx:22-26 | The initial positions are generated for the initial layout, whose options are remembered. |
| `App.App.Render` | src/App.tsx:29-49 | The ref and the positions state follow `MapPositions`. The container height follows `ContainerHeight`. |

## Left out

- JSX, SVG and CSS rendering: the gradient, stroke, dash pattern and viewBox of the path, class names, and the particles' CSS style payload.
- Number-to-string formatting. The path is a list of `MoveTo`/`CubicTo` commands over reals, not an SVG string.
- Floating point. Coordinates are exact reals, so `Math.floor(15 * scaleFactor)` is computed on exact values.
- `Math.random`. Every draw is a parameter.
- The per-particle cosmetic samples (scale, duration, delay, float distance, drift, font size, spin). Each is an independent uniform draw, and no property of theirs is stated.
- Timer delays (300 ms and 3800 ms) and their ordering. Only "pending", "fired" and "cancelled" are modelled.
- React scheduling. `useState`, `useMemo` and `useRef` are modelled as class fields and explicit steps. The `setPositions` call inside `useMemo` is one step of `App.Render`. The effect is re-run with the card's flag after each click.
- The resize listener's registration and removal, and `window.innerWidth`. The width is a parameter.
- src/cardConfig.ts, the static card catalogue. It is data only and is not part of this model.
- `Random.Rand`: draws outside [0,1) are admitted but no bound is stated for them, because `Math.random()` never returns such values.
- `Positions.GeneratePositions`: column counts of 3 or more are excluded by `requires`. No caller passes them. The code would return normally for fewer than 3 cards and throw once a card reaches column 2, and the model does not cover those inputs.
