# Trolley scan-to-cart: a Dafny model

This project models the three pieces of real logic in the trolley scanning web app. The rest of the app is page layout.

- **The cart page** (`src/pages/Cart.tsx`). The page holds the cart as one list of lines `{id, barcode, name, price, image_url, quantity}`. Three handlers replace that list: change a quantity, remove a line, and check out. The subtotal is a left fold of price × quantity over the lines. Here the page is the class `CartPage.Cart` with a `seq<Line>` field, and prices are integer cents.
- **The scan page** (`src/pages/Scan.tsx`). Six state fields are changed by:
  - three handlers: file selection, scan, and add-to-cart;
  - two timer callbacks: scan completion and the post-add reset.

  Here the page is the class `ScanPage.Scan`. Each handler and each callback is its own transition method. The product lookup is `find` over a fixed five-row table.
- **The barcode utility** (`src/utils/barcodeScanner.ts`).
  - The validity test `isBarcodeValid` checks for at least eight characters, all of them decimal digits.
  - The placeholder scanner returns one of five fixed barcodes.

`Runtime` holds two pieces of the JavaScript runtime that the pages rely on:
- `null`/`undefined` as `Option`;
- the index idiom `Math.floor(Math.random() * n)`, which `Runtime.RandomIndex` proves always gives a valid index.

Timers are modelled as explicit events. `ScanPage.Scan` keeps two ghost counters of the callbacks `setTimeout` has queued and not yet run. A callback method may fire only while one is queued. As in the code, each callback is applied unconditionally when it fires.

The object invariant `ScanPage.Scan.Valid()` holds whatever order the handlers and callbacks run in. It says:
- a preview exists exactly when a file is selected;
- a barcode is shown exactly when a product is;
- the product's barcode is the shown barcode, and that barcode passes `isBarcodeValid`;
- "added" implies a product;
- while loading, a completion is queued.

The page has no stale-result guard and never cancels the reset timer: each callback is applied unconditionally. Its controls make this safe:
- a new image can be chosen only through the upload placeholder (no preview) or the Upload Image button (no file), `ScanPage.Scan.UploadOffered`;
- `ScanPage.Scan.Reachable()` describes the states reached when every handler runs through a control the page shows; the constructor establishes it, and each handler preserves it when its control is offered, as does each callback;
- in such a state at most one callback is queued, and while it is, no upload control, enabled Scan button or enabled Add button is shown (`ScanPage.Scan.QueuedCallbackIsOnlyEvent`), so nothing can happen before it fires.

Two more points where the page is simpler than a full scanning flow:
- Adding to the cart does not touch any cart store.
- The scan never fails: the looked-up barcode always comes from the table itself, so `find` always succeeds.

## Model

| member | source | states |
|---|---|---|
| Runtime.Scaled | src/utils/barcodeScanner.ts:24 | `r * n`, for `r` in [0, 1) and `n > 0`, lies in [0, n) |
| Runtime.RandomIndex | src/utils/barcodeScanner.ts:24 | `Math.floor(r * n)` is a valid index below `n`, and it is the floor of `r * n` |
| BarcodeScanner.MatchesDigitRunIff | src/utils/barcodeScanner.ts:32 | the regex `/^\d+$/` accepts exactly the non-empty strings whose every character is in '0'..'9' |
| BarcodeScanner.IsBarcodeValidIff | src/utils/barcodeScanner.ts:30-33 | `isBarcodeValid(s)` holds if and only if `s` has at least 8 characters and all are digits |
| BarcodeScanner.ShortBarcodeInvalid | src/utils/barcodeScanner.ts:32 | a string shorter than 8 characters is never valid |
| BarcodeScanner.NonDigitBarcodeInvalid | src/utils/barcodeScanner.ts:32 | one character outside '0'..'9' at any position makes a string invalid |
| BarcodeScanner.LongDigitStringValid | src/utils/barcodeScanner.ts:32 | every all-digit string of length 8 or more is valid |
| BarcodeScanner.ValidBarcodeNonEmpty | src/utils/barcodeScanner.ts:32 | a valid barcode is never empty |
| BarcodeScanner.MockBarcodesShape | src/utils/barcodeScanner.ts:16-22 | the five mock barcodes are a common 12-digit stem followed by the digits 0 to 4 |
| BarcodeScanner.MockBarcodesDistinct | src/utils/barcodeScanner.ts:16-22 | the five mock barcodes are pairwise distinct |
| BarcodeScanner.MockBarcodesValid | src/utils/barcodeScanner.ts:16-22 | each mock barcode passes `isBarcodeValid` |
| BarcodeScanner.ScanBarcodeFromImage | src/utils/barcodeScanner.ts:5-28 | whatever `Math.random()` yields, the scanner returns one of the five listed barcodes, and it is valid |
| BarcodeScanner.EveryMockBarcodeReachable | src/utils/barcodeScanner.ts:16-25 | each of the five barcodes is returned for some random draw |
| CartPage.SetQuantity | src/pages/Cart.tsx:45-47 | the mapped list has the same length and order; lines with the id get the new quantity, and every other line is unchanged |
| CartPage.SetQuantityKeepsPositive | src/pages/Cart.tsx:43-47 | if all quantities are at least 1 and the new quantity is at least 1, all quantities stay at least 1 |
| CartPage.SetQuantityAbsentId | src/pages/Cart.tsx:45-47 | updating an id that no line carries leaves the list unchanged |
| CartPage.RemoveId | src/pages/Cart.tsx:53 | a line is in the filtered list if and only if it was in the list and has a different id, and the list never grows |
| CartPage.RemoveIdAppend | src/pages/Cart.tsx:53 | filtering distributes over concatenation, so the lines that stay keep their relative order |
| CartPage.RemoveIdAbsent | src/pages/Cart.tsx:53 | removing an id that no line carries leaves the list unchanged |
| CartPage.RemoveIdNoneLeft | src/pages/Cart.tsx:53 | after removal no line carries the id, and positive quantities stay positive |
| CartPage.ReduceIsSum | src/pages/Cart.tsx:62-64 | the left fold of `reduce` from a start value equals the start value plus the sum of price × quantity |
| CartPage.SumAppend | src/pages/Cart.tsx:63 | the sum of price × quantity is additive over concatenation |
| CartPage.SubtotalIsSum | src/pages/Cart.tsx:62-64 | the subtotal is the sum of price × quantity; it is 0 for an empty cart and additive over concatenation |
| CartPage.SubtotalNonNegative | src/pages/Cart.tsx:62-64 | with all quantities at least 1, the subtotal is never negative |
| CartPage.SumNonNegative | src/pages/Cart.tsx:63 | with all quantities at least 1, the sum of price × quantity is never negative |
| CartPage.InitialSubtotal | src/pages/Cart.tsx:11-36 | the starting cart totals 1596 cents (499×1 + 249×2 + 599×1) |
| CartPage.Cart.constructor | src/pages/Cart.tsx:39 | the page starts with the three initial lines, all with quantity at least 1 |
| CartPage.Cart.CalculateSubtotal | src/pages/Cart.tsx:62-64 | the page's subtotal is the sum of price × quantity over its lines, and is never negative while every quantity is at least 1 |
| CartPage.Cart.UpdateQuantity | src/pages/Cart.tsx:42-48 | a quantity below 1 leaves the cart exactly as it was; otherwise the cart becomes the mapped list; quantities at least 1 stay so |
| CartPage.Cart.RemoveFromCart | src/pages/Cart.tsx:50-60 | the cart becomes the filtered list, so no line has the id; an absent id changes nothing; quantities at least 1 stay so |
| CartPage.Cart.HandleCheckout | src/pages/Cart.tsx:66-75 | the cart is empty, so its subtotal is 0 |
| ScanPage.Find | src/pages/Scan.tsx:81 | `find` returns the first row with that barcode, or nothing exactly when no row has it |
| ScanPage.FindOwnBarcode | src/pages/Scan.tsx:77-82 | in a table with distinct barcodes, looking up row k's barcode returns row k |
| ScanPage.MockProductBarcodes | src/pages/Scan.tsx:9-40 | row k of the product table carries the scanner's k-th mock barcode |
| ScanPage.MockProductsWellFormed | src/pages/Scan.tsx:9-40 | the product table is non-empty, its barcodes are distinct, and each passes `isBarcodeValid` |
| ScanPage.TableLookup | src/pages/Scan.tsx:77-82 | in a well-formed table, the barcode drawn from row k resolves to row k and is valid |
| ScanPage.Scan.constructor | src/pages/Scan.tsx:43-48 | the page starts idle: nothing selected, nothing loading, no barcode, no product, not added; its table is `mockProducts`; the state is `Reachable` |
| ScanPage.Scan.QueuedCallbackIsOnlyEvent | src/pages/Scan.tsx:139-222 | in a reachable state at most one callback is queued, and one is queued exactly when no upload control, enabled Scan button or enabled Add button is shown |
| ScanPage.Scan.HandleFileChange | src/pages/Scan.tsx:53-62 | with a file, the page selects it, takes its preview, and clears barcode, product and "added", whatever the prior state; with no file, nothing changes; run from an upload control (lines 139-141, 176-183) it keeps the state `Reachable` |
| ScanPage.Scan.HandleScan | src/pages/Scan.tsx:68-72 | with no file, nothing changes; otherwise only loading is set and a completion is queued; either way the Scan button is not enabled afterwards (lines 159-163); run from the enabled Scan button it keeps the state `Reachable` |
| ScanPage.Scan.ScanCompletes | src/pages/Scan.tsx:74-85 | barcode and product become row i's barcode and row i, so the product is present and matches the barcode; loading ends; file, preview and "added" are untouched; the state stays `Reachable` |
| ScanPage.Scan.HandleAddToCart | src/pages/Scan.tsx:88-99 | with no product, nothing changes; otherwise only "added" is set and a reset is queued; either way the Add button is not enabled afterwards (lines 213-222); run from the enabled Add button it keeps the state `Reachable` |
| ScanPage.Scan.ResetFires | src/pages/Scan.tsx:101-107 | file, preview, barcode and product are cleared and "added" is false, unconditionally; loading is untouched; the state stays `Reachable` |
| ScanPage.ScanAndAdd | src/pages/Scan.tsx:43-107 | choosing an image, scanning it, adding the product and letting the reset fire, each through a control the page shows, returns the page to its starting state |

## Left out

- All page rendering: the JSX of `Cart.tsx` and `Scan.tsx`, and `Home.tsx`, `Footer.tsx`, `Navbar.tsx` (with its fixed badge "0") and `NotFound.tsx`. The button guards of `Scan.tsx` lines 159-163, 188 and 213-222 are kept as the predicates `ScanButtonShown`, `ScanButtonEnabled`, `AddButtonShown` and `AddButtonEnabled`.
- Toast notifications and the `itemToRemove` lookup that only feeds the removal toast. These are user-interface side effects.
- `handleUploadClick` only clicks the hidden file input, a browser action. Its effect is kept as `ScanPage.Scan.UploadOffered`, the condition under which a file can be chosen.
- The handler methods of `ScanPage.Scan` may be called in states where the page shows no control for them. Only `Reachable` and the lemma about it take the controls into account; the other contracts hold for every call.
- `URL.createObjectURL`: its result is a parameter of `HandleFileChange`. No preview URL is ever revoked in the code, so none is in the model.
- Timer delays (1500 ms, 2000 ms): any queued callback may fire next. Real timers fire in deadline order, so the model admits some interleavings the browser would not produce.
- `ScanPage.Scan.ScanCompletes` takes the drawn index rather than the value of `Math.random()`. `Runtime.RandomIndex` shows separately that `Math.floor(Math.random() * length)` is always such an index.
- Runtime.RandomIndex: `Math.random()` is a double and `random * n` a rounded floating-point product, while the model multiplies exact reals. For n = 5 nothing is lost: a double below 1 times 5 rounds to a value below 5, so the floor is still a valid index.
- Floating-point prices, the tax (`* 0.1`), the total (`* 1.1`) and `toFixed(2)` formatting. Prices are integer cents and the subtotal is exact.
- `CartPage.Line.quantity` is an integer. A JavaScript number may be fractional, but the page only ever passes a line's quantity plus or minus 1.
- JavaScript string length counts UTF-16 code units, while Dafny counts characters. This never changes the result of `isBarcodeValid`, because a string with a character outside the basic plane fails the digit test anyway.
- The scanner's image argument and its 1500 ms delay: the result does not depend on the image.
- Behaviour a fuller scanning flow would have and this code does not:
  - a real decoder and catalog resolver;
  - separate NotFound and ServiceError outcomes;
  - a stale-result guard on the scan completion, and cancelling the reset timer when a new image is chosen;
  - an `addToCart` that increments quantities.
