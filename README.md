# barcode-layout: verified model of the positioning and check-digit core

barcode-layout is a single-page tool for composing a printable sheet of text,
barcode and QR-code elements. The user drags elements around a canvas with
grid snapping. Buttons fill the data field with valid test identifiers: IMEI,
ICCID, EAN-13 and UPC-A.

This Dafny project models the logic under that UI, in three modules, one per
source file:

- `Shared` (`shared.dfy`, from `src/shared.ts`) covers check-digit generation.
  - The GS1 weighted-sum check digit `eanCheckDigit` is a method with the
    source's loop. It is proved against a specification function.
  - That function is proved equal to the right-to-left weighting of section
    7.9 of the GS1 General Specifications.
  - The check digit round-trips: appending a digit gives a valid code exactly
    when that digit is the check digit.
  - The random-digit generator, the EAN-13 and UPC-A generators, and the
    payloads that the IMEI and ICCID generators hand to the Luhn library are
    methods whose contracts give length and digit content, and, for EAN-13 and
    UPC-A, validity.
- `Barcode` (`barcode.dfy`, from `src/Barcode.tsx`) covers:
  - the symbology list;
  - the `hasChecksum` flag handed to the renderer;
  - the guarded grab-offset computation on pointer-down.
- `App` (`app.dfy`, from `src/App.tsx`) covers:
  - the `DrawingElement` union;
  - the element list with its append and delete-by-key;
  - the grid snap, `Math.round(v / g) * g` over integers;
  - the `AppState` class, which holds the one-slot drag session (`dragging`),
    the grid size, the element list and the unique-key counter. Its methods
    are pointer-down, pointer-move and pointer-up, add and delete.

The pointer-move handler writes the dragged element's `left`/`top`. Elements
are objects of class `Shared.Element`, so the handler's `modifies` clause
names the dragged element and nothing else.

Behaviour of the code worth spelling out:

- `eanCheckDigit` never throws. A non-digit character makes `parseInt` return
  NaN, and the function returns the string `"NaN"`. The empty string gets
  check digit `"0"`.
- `411111111111` has check digit `"3"`, as the GS1 rule gives
  (`Shared.AllOnesExample`).
- `Math.round` rounds halves towards positive infinity, not away from zero:
  `Snap(-5, 10) == 0` and `Snap(5, 10) == 10`.
- The two scroll signs are modelled as written: `bounds + scroll` on
  pointer-down and `bounds - scroll` on pointer-move. See "## Findings".

## Model

| member | source | states |
|---|---|---|
| `Shared.GrabOffset` | src/App.tsx:104-107 | the offset plus the element's page position (its viewport bounds plus the scroll) is the pointer's page position |
| `Shared.DigitChar` | src/shared.ts:33 | appending a draw from 0..9 to the string adds one decimal digit character whose value is that draw |
| `Shared.ParseDigit` | src/shared.ts:47-48 | `parseInt` of one character is finite exactly when the character is a decimal digit, and NaN otherwise |
| `Shared.Weight` | src/shared.ts:49 | every weight is 1 or 3 |
| `Shared.PrefixSum` | src/shared.ts:43-51 | the loop's running sum is never negative while it stays a number |
| `Shared.PrefixSumIsGs1Sum` | src/shared.ts:46-51 | the loop's sum is NaN exactly when a non-digit was met; otherwise it equals the GS1 sum, in which the rightmost digit weighs 3 and weights alternate leftwards |
| `Shared.CeilDiv` | src/shared.ts:53 | the result is the ceiling of `a / b`: `b * (q - 1) < a <= b * q` |
| `Shared.CheckValue` | src/shared.ts:53 | the check value is a digit; sum plus check is a multiple of 10; the check is 0 exactly when the sum already is a multiple of 10; it equals `(10 - sum mod 10) mod 10` |
| `Shared.EanCheck` | src/shared.ts:42-55 | for a digit string the result is one digit character that completes the GS1 sum to a multiple of 10; otherwise the result is "NaN" |
| `Shared.CheckDigitIsTheOnlyValidDigit` | src/shared.ts:38-55 | payload plus digit `c` is a valid GS1 code if and only if `c` is the payload's check digit |
| `Shared.Ean13Example` | src/shared.ts:42-55 | the check digit of 400638133393 is 1 |
| `Shared.AllOnesExample` | src/shared.ts:42-55 | the check digit of 411111111111 is 3 |
| `Shared.EanCheckDigit` | src/shared.ts:42-55 | the loop returns `EanCheck(text)`: for digits, one character that makes text plus it a valid GS1 code; otherwise "NaN" |
| `Shared.GenerateRandomNumber` | src/shared.ts:30-36 | the result has exactly n characters, all decimal digits, and the i-th character's value is the i-th draw |
| `Shared.GenerateEanCheckDigit` | src/shared.ts:38-40 | the result is the text followed by its check digit; for a digit text it is one longer and a valid GS1 code |
| `Shared.GenerateEan13` | src/shared.ts:14-16 | 13 digit characters, a valid GS1 code, ending in the check digit of its first 12, which are the draws |
| `Shared.GenerateUpc` | src/shared.ts:26-28 | 12 digit characters, a valid GS1 code, ending in the check digit of its first 11, which are the draws |
| `Shared.GenerateImeiPayload` | src/shared.ts:18-20 | the Luhn payload is the TAC followed by 6 digits; it is all digits exactly when the TAC is; with the default TAC it is 14 digits |
| `Shared.GenerateIccidPayload` | src/shared.ts:22-24 | the Luhn payload is "89" followed by 17 digits: 19 digit characters |
| `Barcode.HasChecksum` | src/Barcode.tsx:51-54 | the flag is true exactly when a symbology is given, it is UPC-A, EAN-13 or EAN-8, and the data has that symbology's full length (12, 13, 8) |
| `Barcode.BarcodeTypesListsEachOnce` | src/Barcode.tsx:12-22 | every symbology is in the list, and the listed names are pairwise distinct |
| `Barcode.FullLengthGs1DataIsFlagged` | src/Barcode.tsx:51-54 | 13-character data is flagged as EAN-13 and 12-character data as UPC-A; no other listed symbology than those three is ever flagged |
| `Barcode.HandleMouseDown` | src/Barcode.tsx:81-98 | nothing is reported without a callback or a mounted element; otherwise the current target and an offset that, added to bounds plus scroll, gives the pointer's page position |
| `App.NewElement` | src/App.tsx:72-97 | the new element is of the picked kind and carries the key and the data; a QR code's scale is the module width, text takes the height, a barcode takes height and module width |
| `App.WithoutKey` | src/App.tsx:208-210 | the result holds exactly the elements whose key differs; it is a subsequence of the input, so order is kept; an absent key leaves the list unchanged |
| `App.SubsequenceKeepsKeysIncreasing` | src/App.tsx:208-210 | deleting keeps the keys strictly increasing, hence unique, and adds no element |
| `App.DeletePresentKeyRemovesOne` | src/App.tsx:208-210 | with unique keys, deleting a present key removes exactly one element |
| `App.Snap` | src/App.tsx:121-122 | the snapped coordinate is a multiple of the grid size and lies in the window (v - g/2, v + g/2] around the raw value |
| `App.SnapIsNearestMultiple` | src/App.tsx:121-122 | the window holds only one multiple of the grid size, so Snap is the nearest multiple, ties going up |
| `App.SnapIsIdempotent` | src/App.tsx:121-122 | a coordinate on the grid snaps to itself; snapping twice equals snapping once |
| `App.SnapRoundsHalvesUp` | src/App.tsx:121-122 | halves round towards positive infinity: 5 snaps to 10, -5 to 0 and -15 to -10 on a grid of 10 |
| `App.SnapShiftsByWholeCells` | src/App.tsx:121-122 | shifting the raw value by k cells shifts the snapped value by k cells |
| `App.MoveTarget` | src/App.tsx:118-119 | as written: (canvas bounds - scroll) + offset + result = pointer page position |
| `App.IntendedMoveTarget` | src/App.tsx:118-119 | corrected: (canvas bounds + scroll) + offset + result = pointer page position |
| `App.IntendedDragMovesBySnappedDelta` | src/App.tsx:99-122 | with the corrected transform, an on-grid element moves by the snapped pointer delta, whatever the grab point and scroll |
| `App.UnscrolledDragMovesBySnappedDelta` | src/App.tsx:99-122 | as written and with the page unscrolled, an on-grid element moves by the snapped pointer delta |
| `App.MoveTargetIsOffByTwiceTheScroll` | src/App.tsx:104-119 | the as-written raw position exceeds the corrected one by twice the scroll |
| `App.ScrolledGrabMovesBySnappedDoubleScroll` | src/App.tsx:99-122 | as written, for any scroll, a move event at the grab position moves an on-grid element by twice the scroll snapped to the grid |
| `App.ScrolledGrabJumps` | src/App.tsx:99-122 | as written, when twice the scroll is a whole number of grid cells, a move event at the grab position moves a scrolled on-grid element by twice the scroll; the corrected transform leaves it in place |
| `App.AppState.constructor` | src/App.tsx:56-62 | no drag session, grid size 10, no elements |
| `App.AppState.SetGridSize` | src/App.tsx:219-227 | the slider sets a grid size in 1..50 |
| `App.AppState.AddElement` | src/App.tsx:72-97 | the counter advances by one; exactly one element of the picked kind is appended under the new key; earlier elements are unchanged; the new key exceeds every existing key; key order and uniqueness are kept |
| `App.AppState.DeleteElement` | src/App.tsx:208-210 | the list becomes its filter by key; no element with the key remains; key order and uniqueness are kept |
| `App.AppState.HandleMouseDown` | src/App.tsx:99-109 | the session captures the element and the offset of the pointer from the element's page position (bounds plus scroll) |
| `App.AppState.StartDrag` | src/App.tsx:242-244 | a QR code's or barcode's reported click becomes the session |
| `App.AppState.HandleMouseUp` | src/App.tsx:64-70 | the window's mouse-up clears the session |
| `App.AppState.HandleMouseMove` | src/App.tsx:111-123 | without a session nothing may change; with one, only the dragged element is written; its left/top become the snapped as-written raw position |
| `App.GrabAndMove` | src/App.tsx:99-123 | on an unscrolled page, pointer-down then pointer-move moves an on-grid element by the snapped pointer delta |
| `App.ReleaseAndMove` | src/App.tsx:64-70 | after a mouse-up, a mouse-move leaves every element where it is |

## Left out

- `luhn.generate` (src/shared.ts:2, 19, 23) is a foreign library whose code is
  not part of this model. Only the payloads built for it are modelled
  (`GenerateImeiPayload`, `GenerateIccidPayload`), not the appended Luhn digit.
- lodash `random(0, 9)` is modelled as a sequence of draws, each in 0..9,
  given as input. lodash `uniqueId("id")` is modelled as a counter that
  pre-increments, so keys are 1, 2, 3, …. The `"id"` prefix and the decimal
  formatting of the key are not modelled, since they map distinct counters to
  distinct strings.
- The barcode renderer `drawBarcode`, the SVG `getBBox`/`viewBox` sizing
  (src/Barcode.tsx:47-79) and its error text are not modelled. They are a
  foreign renderer and DOM layout.
- src/QrCode.tsx is not part of this model. It wraps an asynchronous QR
  renderer. Its pointer-down offset is the same computation as
  `Barcode.HandleMouseDown`; its `preventDefault`/`stopPropagation` calls are
  not modelled.
- src/styled.ts (class-name plumbing), the JSX form and its `onChange` wiring,
  `window.print`, and the `parseInt`/`parseFloat` parsing of inputs are not
  modelled. The form's values are parameters of `AddElement`.
- `AddElement`: the button is disabled while the data is empty (src/App.tsx:192).
  The model does not rely on that, so no non-empty-data invariant is stated.
- All DOM coordinates, scroll offsets and `moduleWidth` are integers in the
  model, not floating point.
  - `Snap` is exact integer rounding. Floating-point division could differ only
    for magnitudes beyond about 2^52.
  - `CheckValue` likewise assumes the weighted sum stays below 2^53.
- The `${…}px` formatting of `style.left`/`style.top` is not modelled. The
  model stores pixel integers.
- An element's position before its first drag (style unset, laid out by CSS)
  is not modelled. `Element` starts at the coordinates its constructor is given.
- The `x: 0, y: 0` properties in the element literals (src/App.tsx:79, 86, 93)
  are not modelled. They are outside the `DrawingElement` type and nothing
  reads them.
- String lengths (`data.length`, `text.length`) are counted in characters, not
  UTF-16 code units.
- React's render cycle, state batching and listener registration/removal are
  not modelled. `AppState`'s methods apply each update directly.
- A drag whose element was deleted mid-drag still writes to that element
  object. In the browser the detached node is written with no visible effect.

## Findings

| source | as written | input that shows it | evidently intended | confidence | as-written member | corrected member |
|---|---|---|---|---|---|---|
| src/App.tsx:118-119 | pointer-move takes the canvas's page origin as `bounds - scroll` | page scrolled down by 5, text at viewport (30, 40) on a canvas at (0, 0), grid 10, grab it at page (35, 50) and move the pointer 1 px to (35, 51): it lands at top 50 | the page origin is `bounds + scroll`, as pointer-down uses (src/App.tsx:105-106), so the element stays at top 40 | medium (the layout normally keeps the window unscrolled); not executed | `App.ScrolledGrabJumps` | `App.IntendedDragMovesBySnappedDelta` |

`AppState.HandleMouseMove` keeps the as-written transform (`MoveTarget`)
because it models the handler as it is. `IntendedMoveTarget` is the corrected
transform. `IntendedDragMovesBySnappedDelta` proves that it moves an element by
the snapped pointer delta for every scroll position.
