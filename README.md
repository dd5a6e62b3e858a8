# Restaurant point-of-sale: verified model of the order, history and product screens

This project models the domain logic under the views of a React point-of-sale front end. It covers
four screens:

- **The order screen** (`NewOrder`). A menu grid is filtered by category chips. The cart is a list
  of lines, each a menu item with a quantity. An item is added by incrementing its line or appending
  a new line with quantity 1. Lines are removed by id, and quantities are adjusted but never drop
  below one. Totals carry 5% VAT and a 10% service charge. Saving builds an order record with
  "Guest" and "Takeaway" standing in for an empty name and table, appends it to the stored
  `orderHistory`, and clears the cart.
- **The single-page order screen** (`example`). It uses the same cart updaters. It differs in
  these ways:
  - there is no service charge;
  - the name and table are stored exactly as typed;
  - removing an id that is not in the cart does nothing;
  - when storage holds no menu, a default menu of six items is written to storage and shown;
  - there is no snackbar, no loading flag and no saved-order or invoice flow;
  - its chips omit "Desserts".
- **The order history** (`OrderHistory`). The stored history is shown newest first. One filter is a
  search over name, table and id; the other is a date range whose end day is inclusive. The screen
  also shows summary sums and a count, paginates the table, and draws an avatar with initials and a
  colour for each order.
- **The product wizard** (`NewProducts`). It has three steps:
  - details, with a validation rule and message for each field and a price input that keeps only
    digits and dots;
  - an image, checked for its type and a 5 MB size limit;
  - a preview, then a save that appends the item to the stored `menuItems` catalog and puts it into
    a "recently added" list of at most four items.

Module layout:

- `Wrappers`: `Option`.
- `Seqs`: filter, reverse, clamped slice, and their lemmas.
- `Text`: case mapping, `includes`, `trim`, `split(' ')` and decimal digits.
- `Menu`: menu items and the category filter.
- `Cart`: cart lines, the updaters shared by both order screens, and the subtotal.
- `Orders`: the order record and the storage helpers.
- `NewOrder`, `ExampleOrder` and `CartVariants`: the two order screens and the lemmas that compare
  them.
- `OrderHistory`.
- `NewProducts`.

Modelling choices:

- **Storage.** Each `localforage` key is an `Option<seq<T>>` parameter, where `None` means the key
  is absent. A method that writes the key returns its new value. Each save is one atomic step.
- **Component state.** Each screen's state is a class with one field per `useState` the model covers
  (OrderHistory's `anchorEl` and `exportLoading` belong to the CSV export menu, which is left out, and
  its `dateFilter` object is split into `startDate` and `endDate`). Pure updaters,
  the filters, totals and validation are functions. The staged filtering of `applyFilters`, the
  summary fold of `calculateSummary` and the field-by-field validation of `validateForm` are
  methods proved against those functions.
- **Money.** Money is `real`, so 0.05 and 0.10 are exact.
- **Clock readings.** `Date.now()` and the save date are parameters.
- **Dates.** Dates are integer millisecond timestamps, and "the day after the end" is
  end + 86 400 000.
- **Render guards.** The requires clauses of the wizard's handlers mirror what the UI renders:
  - the fields are on step 0 and the image chooser on step 1;
  - Back is disabled on step 0;
  - Next is replaced by Save on the last step.

## Model

| member | source | states |
|---|---|---|
| Menu.FilterByCategory | src/components/NewOrder.js:226-228 | under "All" the menu unchanged; otherwise exactly the items of the active category |
| Menu.FilterByCategoryExact | src/components/NewOrder.js:226-228 | the filtered menu is an order-preserving subsequence, and each matching item is kept as often as it occurs |
| Cart.AddLine | src/components/NewOrder.js:230-246 | after adding, a line for the item exists; the cart grows by one line exactly when the item was not yet in it |
| Cart.WithoutId | src/components/NewOrder.js:256 | no line with the id remains, and every other line is kept |
| Cart.UpdateQuantity | src/components/NewOrder.js:260-268 | same length and same items; lines with another id are unchanged, and a line with the id keeps a quantity of at least 1 |
| Cart.Subtotal | src/components/NewOrder.js:271 | the `reduce` of price times quantity, folded from the left; it has no contract of its own, and SubtotalAppend, SubtotalNonNegative and SubtotalIncrement state its properties |
| Cart.AddExisting | src/components/NewOrder.js:232-236 | adding an item already in the cart keeps the length and adds one to that line's quantity only |
| Cart.AddNew | src/components/NewOrder.js:237-243 | adding a new item appends one line with quantity 1 after the unchanged lines |
| Cart.AddPreserves | src/components/NewOrder.js:230-246 | adding keeps ids unique and quantities at least 1, and the item is then in the cart |
| Cart.AddTimesCounts | src/components/NewOrder.js:230-246 | adding a new item n times gives a single line for it with quantity n |
| Cart.UpdateQuantityClamps | src/components/NewOrder.js:260-268 | the matching line gets max(1, q + change), so it stays at least 1; other lines are unchanged |
| Cart.UpdatePreserves | src/components/NewOrder.js:260-268 | adjusting a quantity keeps ids unique and quantities at least 1 |
| Cart.RemoveKeepsOthers | src/components/NewOrder.js:256 | removal keeps, in order, every line with another id and none with this id; an absent id changes nothing |
| Cart.RemoveShrinks | src/components/NewOrder.js:256 | removing an id present in the cart makes the cart strictly shorter |
| Cart.RemovePreserves | src/components/NewOrder.js:256 | removal keeps ids unique and quantities at least 1 |
| Cart.SubtotalAppend | src/components/NewOrder.js:271 | the reduce over a cart with one more line adds that line's price times quantity |
| Cart.SubtotalNonNegative | src/components/NewOrder.js:271 | with non-negative prices and positive quantities the subtotal is non-negative |
| Cart.SubtotalIncrement | src/components/NewOrder.js:271 | incrementing a line raises the subtotal by that line's unit price |
| Cart.AddRaisesSubtotal | src/components/NewOrder.js:230-246 | each add raises the subtotal by exactly one unit price |
| NewOrder.CalculateTotal | src/components/NewOrder.js:270-276 | the subtotal is the line sum, VAT is 5% of it, the service charge is twice the VAT, and the total is 1.15 times the subtotal |
| NewOrder.SoupAndBreadTotals | src/components/NewOrder.js:270-276 | 2 x 10 + 1 x 5 gives subtotal 25, VAT 1.25, service 2.5, total 28.75 |
| NewOrder.FindById | src/components/NewOrder.js:250 | `find` returns the first line with the id, and nothing exactly when no line has it |
| NewOrder.RemoveLine | src/components/NewOrder.js:248-258 | the updater fails exactly when the id is absent (it reads `item.name` of an undefined match); otherwise it returns the lines without the id |
| NewOrder.MakeOrder | src/components/NewOrder.js:283-290 | the record carries the cart, id, date and totals; an empty name becomes "Guest" and an empty table "Takeaway", and any other name or table (a whitespace-only one included) is stored as typed |
| Orders.StoredOrEmpty | src/components/NewOrder.js:293 | an absent key reads as the empty list |
| Orders.Appended | src/components/NewOrder.js:294 | the new history is the old one unchanged plus the order at its end |
| NewOrder.OrderSystem.FilteredMenuItems | src/components/NewOrder.js:226-228 | under "All" the whole menu; otherwise exactly the menu items of the active category |
| NewOrder.OrderSystem.constructor | src/components/NewOrder.js:126-139 | the initial state: empty menu, cart, name and table, category "All", loading, snackbar closed |
| NewOrder.OrderSystem.LoadMenu | src/components/NewOrder.js:143-224 | stored items are shown, and with none stored the menu stays as it is; loading ends; nothing else changes |
| NewOrder.OrderSystem.SetActiveCategory | src/components/NewOrder.js:362 | the chip sets the active category |
| NewOrder.OrderSystem.SetCustomerName | src/components/NewOrder.js:478 | the name field sets the customer name |
| NewOrder.OrderSystem.SetTableNumber | src/components/NewOrder.js:499 | the table field sets the table number |
| NewOrder.OrderSystem.AddToOrder | src/components/NewOrder.js:230-246 | the cart becomes the add updater's result; the snackbar opens only for a new line |
| NewOrder.OrderSystem.RemoveFromOrder | src/components/NewOrder.js:248-258 | with the id present, the lines without it and a "removed" notice naming the first match; with the id absent, a failure and no change |
| NewOrder.OrderSystem.UpdateLineQuantity | src/components/NewOrder.js:260-268 | the cart becomes the clamped quantity update |
| NewOrder.OrderSystem.SaveOrder | src/components/NewOrder.js:278-312 | an empty cart changes nothing; otherwise exactly one record is appended, the cart, name and table are cleared, the saved order is set and the invoice is shown on request |
| ExampleOrder.CalculateTotal | src/components/example.js:87-92 | the subtotal is the line sum, VAT is a twentieth of it, and the total is 1.05 times the subtotal; there is no service charge |
| ExampleOrder.MakeOrder | src/components/example.js:97-104 | the record carries the cart, id, date, the name and table exactly as typed, the subtotal, the VAT and a 105% total, and no service charge |
| ExampleOrder.DefaultItemsWellFormed | src/components/example.js:40-47 | the six defaults have ids 1 to 6, positive prices and categories that have a chip |
| ExampleOrder.MainCourseDefaults | src/components/example.js:56-58 | the "Main Course" chip shows the first three defaults |
| ExampleOrder.BeverageDefaults | src/components/example.js:56-58 | the "Beverages" chip shows the last two defaults |
| ExampleOrder.OrderSystem.FilteredMenuItems | src/components/example.js:56-58 | under "All" the whole menu; otherwise exactly the menu items of the active category |
| ExampleOrder.OrderSystem.constructor | src/components/example.js:26-30 | the initial state: empty menu, cart, name and table, category "All" |
| ExampleOrder.OrderSystem.LoadMenu | src/components/example.js:35-54 | with no stored menu the defaults are stored and shown; otherwise the stored list is shown and storage is untouched |
| ExampleOrder.OrderSystem.SetActiveCategory | src/components/example.js:135 | the chip sets the active category |
| ExampleOrder.OrderSystem.SetCustomerName | src/components/example.js:214 | the name field sets the customer name |
| ExampleOrder.OrderSystem.SetTableNumber | src/components/example.js:225 | the table field sets the table number |
| ExampleOrder.OrderSystem.AddToOrder | src/components/example.js:60-71 | the cart becomes the add updater's result, with ids kept unique |
| ExampleOrder.OrderSystem.RemoveFromOrder | src/components/example.js:73-75 | the lines without the id; an absent id leaves the cart unchanged |
| ExampleOrder.OrderSystem.UpdateLineQuantity | src/components/example.js:77-85 | the cart becomes the clamped quantity update |
| ExampleOrder.OrderSystem.SaveOrder | src/components/example.js:94-116 | an empty cart changes nothing; otherwise one record with the raw name and table is appended and the cart, name and table are cleared |
| CartVariants.TotalsDifferByServiceCharge | src/components/example.js:87-92 | the screens agree on subtotal and VAT; the totals differ by the service charge and coincide only for a zero subtotal |
| CartVariants.RecordsDiffer | src/components/example.js:97-104 | the saved records differ only in the defaulted name and table, the service charge and the total |
| CartVariants.RemovalDiffers | src/components/example.js:73-75 | on a present id both removals agree; on an absent id one fails and the other is a no-op |
| OrderHistory.MatchesSearch | src/components/OrderHistory.js:88-96 | the search test: the lower-cased term occurs in the lower-cased name, in the table as stored, or in the decimal id; no contract of its own, and SearchFindsId, SearchIgnoresNameCase and SearchTableIsCaseSensitive state its properties |
| OrderHistory.InDateRange | src/components/OrderHistory.js:98-104 | the date test: strictly after the start and strictly before the day after the end; no contract of its own, and DateRangeBounds states its boundary cases |
| OrderHistory.FilterOrders | src/components/OrderHistory.js:84-108 | the staged search-then-date filtering equals one filter by the combined criteria |
| OrderHistory.NoFilterKeepsAll | src/components/OrderHistory.js:88-99 | an empty term and an incomplete date range leave the list unchanged |
| OrderHistory.FilterResultExact | src/components/OrderHistory.js:84-108 | the result is an order-preserving subsequence holding every passing order as often as it occurs, and no other |
| Text.IncludesIff | src/components/OrderHistory.js:89-93 | `Includes` agrees with the independent definition of `includes`: the term starts at some position of the string |
| Text.IncludesEmpty | src/components/OrderHistory.js:89-93 | the empty term occurs in every string, as with `includes("")` |
| Text.NatToStringNoLeadingZero | src/components/OrderHistory.js:93 | `id.toString()` has no leading zero except for 0 itself |
| OrderHistory.SearchFindsId | src/components/OrderHistory.js:93 | searching for an order's id finds it |
| OrderHistory.SearchIgnoresNameCase | src/components/OrderHistory.js:89-91 | a term matching the name up to case finds the order |
| OrderHistory.SearchTableIsCaseSensitive | src/components/OrderHistory.js:92 | the table is not lower-cased: "Takeaway" does not find a Guest/Takeaway order |
| OrderHistory.DateRangeBounds | src/components/OrderHistory.js:98-103 | the start instant is excluded, the last millisecond of the end day is included, and the next day is excluded |
| OrderHistory.SummaryOf | src/components/OrderHistory.js:114-122 | the fold of the reduce counts exactly one per order |
| OrderHistory.CalculateSummary | src/components/OrderHistory.js:114-122 | the in-place accumulation equals the fold of the sums, with a missing field counted as 0, and the count is the number of orders |
| OrderHistory.SummaryAppend | src/components/OrderHistory.js:114-122 | the summary of a concatenation is the field-wise sum of the summaries |
| OrderHistory.SummaryOfServiceChargedOrders | src/components/OrderHistory.js:114-122 | for records that each total 115% of their subtotal, the summed total is 115% of the summed subtotal |
| OrderHistory.PageSlice | src/components/OrderHistory.js:506 | a page holds at most rowsPerPage orders, consecutive in the filtered list |
| OrderHistory.PagesCover | src/components/OrderHistory.js:506 | the first n pages together are exactly the first n x rowsPerPage orders |
| OrderHistory.InitialsOfTwoWords | src/components/OrderHistory.js:131-134 | "First Last" gives the two upper-cased first letters |
| OrderHistory.GetInitials | src/components/OrderHistory.js:131-134 | an empty name and "Walk-in" give "G", and the initials never hold a lower-case letter; InitialsOfName states the value for every other name |
| OrderHistory.InitialsOfName | src/components/OrderHistory.js:131-134 | for every name other than "" and "Walk-in", the initials are the upper-cased first letter of each non-empty piece of `split(' ')`, in order; the empty pieces from leading, trailing or doubled spaces add nothing |
| OrderHistory.FirstLettersSkipsEmpty | src/components/OrderHistory.js:133 | an empty piece adds no letter: `n[0]` is `undefined` and joins as "" |
| OrderHistory.InitialsOfWords | src/components/OrderHistory.js:131-134 | for any non-empty space-free words joined by single spaces (other than "Walk-in"), the initials are exactly the upper-cased first letter of each word, in order |
| Text.SplitJoinWords | src/components/OrderHistory.js:133 | `split(' ')` of words joined by single spaces gives back those words |
| Text.JoinSplit | src/components/OrderHistory.js:133 | every string is its `split(' ')` pieces joined again; the pieces may be empty, which InitialsOfName handles |
| Text.SplitPiecesNoSpace | src/components/OrderHistory.js:133 | no piece of `split(' ')` holds a space |
| OrderHistory.InitialsShape | src/components/OrderHistory.js:131-134 | the initials are at most one longer than the name, and for a name other than "" or "Walk-in" at most as long as the name (one letter per word) |
| OrderHistory.GetRandomColor | src/components/OrderHistory.js:136-139 | the colour is always one of the eight palette entries |
| Seqs.Reverse | src/components/OrderHistory.js:72 | the reversal has the same length and holds the i-th element from the end at position i |
| Seqs.ReverseReverse | src/components/OrderHistory.js:72 | reversing twice gives back the stored order |
| Seqs.ReversePermutes | src/components/OrderHistory.js:72 | reversal keeps every order with its multiplicity |
| OrderHistory.NewestFirst | src/components/OrderHistory.js:72 | after reversal the latest order comes first and the oldest last |
| OrderHistory.OrderHistoryView.constructor | src/components/OrderHistory.js:54-63 | the initial state: no orders, no filters, loading, page 0, 10 rows per page |
| OrderHistory.OrderHistoryView.ApplyFilters | src/components/OrderHistory.js:84-108 | the shown list is the stored list under the current criteria, and the page is reset to 0 |
| OrderHistory.OrderHistoryView.Load | src/components/OrderHistory.js:68-78 | a stored history is shown reversed and re-filtered; with none the lists stay; loading ends |
| OrderHistory.OrderHistoryView.SetSearchTerm | src/components/OrderHistory.js:298 | a new term re-applies the filters and resets the page |
| OrderHistory.OrderHistoryView.SetStartDate | src/components/OrderHistory.js:316 | a new start date re-applies the filters and resets the page |
| OrderHistory.OrderHistoryView.SetEndDate | src/components/OrderHistory.js:335 | a new end date re-applies the filters and resets the page |
| OrderHistory.OrderHistoryView.ResetFilters | src/components/OrderHistory.js:126-129 | both filters are cleared and every stored order is shown again |
| OrderHistory.OrderHistoryView.VisibleOrders | src/components/OrderHistory.js:506 | the rows shown are at most rowsPerPage consecutive filtered orders, starting at page times rowsPerPage |
| OrderHistory.OrderHistoryView.ChangePage | src/components/OrderHistory.js:141-143 | the page becomes the chosen one |
| OrderHistory.OrderHistoryView.ChangeRowsPerPage | src/components/OrderHistory.js:145-148 | the new page size, and back to page 0 |
| NewProducts.SanitizePrice | src/components/NewProducts.js:160 | the sanitised price holds only digits and dots |
| NewProducts.SanitizePriceSpec | src/components/NewProducts.js:160 | sanitising is an order-preserving filter that keeps every digit and dot and is idempotent |
| NewProducts.SanitizePriceText | src/components/NewProducts.js:160 | text of digits and dots passes through unchanged |
| NewProducts.ParsePrice | src/components/NewProducts.js:213 | on digits-and-dots text: NaN exactly when neither the integer part nor the fraction has a digit; otherwise a non-negative number |
| NewProducts.ParsePriceOfNat | src/components/NewProducts.js:213 | a whole number in decimal parses to itself |
| NewProducts.ParsePriceStopsAtSecondDot | src/components/NewProducts.js:213 | "1.2.3" parses to 1.2 |
| NewProducts.ParsePriceLeadingDot | src/components/NewProducts.js:213 | ".5" parses to 0.5, and "." is NaN |
| NewProducts.ParsePriceWhole | src/components/NewProducts.js:213 | digits without a dot parse to their decimal value, and the empty text is NaN |
| NewProducts.ParsePriceDecimal | src/components/NewProducts.js:213 | digits, a dot, digits, then nothing or a further dot parse to the integer part plus the fraction, and are NaN only when both runs are empty |
| NewProducts.ParsePriceDigitsDot | src/components/NewProducts.js:213 | digits, a dot and fraction digits parse to the integer value plus the fraction, and "." alone is NaN |
| NewProducts.PriceValid | src/components/NewProducts.js:210-216 | the price rule: present, not NaN and positive; no contract of its own, and PriceValidIff characterises it |
| NewProducts.PriceValidIff | src/components/NewProducts.js:210-216 | on digits-and-dots text the price is accepted exactly when a non-zero digit occurs before the second dot |
| NewProducts.PriceWithoutDigitsInvalid | src/components/NewProducts.js:210-216 | a price without any digit is rejected |
| NewProducts.FormValid | src/components/NewProducts.js:201-233 | all five rules at once: name and description not blank, price accepted, a category, a description of ten or more characters; no contract of its own, and FieldErrors ties it to the messages |
| NewProducts.FieldErrors | src/components/NewProducts.js:201-233 | each field's message is present exactly when its rule fails, so there is no message exactly when the form is valid |
| NewProducts.CollectErrors | src/components/NewProducts.js:201-233 | the field-by-field build with the `isValid` flag gives the rule messages, and the flag holds exactly when no message is recorded |
| NewProducts.CheckImage | src/components/NewProducts.js:180-189 | a file is accepted exactly when its type contains "image/" and it is at most 5 MB; each rejection has its message |
| NewProducts.ImageSizeBoundary | src/components/NewProducts.js:186-189 | exactly 5 242 880 bytes is accepted, and one byte more is rejected |
| NewProducts.InitialRecent | src/components/NewProducts.js:137 | the initial recent list is the last up-to-four catalog items, newest first |
| NewProducts.PushRecent | src/components/NewProducts.js:293 | the new item comes first, then at most three earlier entries in order; never more than four |
| NewProducts.NewItem | src/components/NewProducts.js:279-286 | the saved item's id, name, category, description and image are the given id, the form's fields and the preview, and its price is the parsed price and is positive |
| NewProducts.ProductUpload.constructor | src/components/NewProducts.js:111-128 | step 0, empty form and errors, no image, dialog closed, empty recent list |
| NewProducts.ProductUpload.LoadRecentlyAdded | src/components/NewProducts.js:133-140 | a non-empty stored catalog sets the recent list; otherwise it is kept |
| NewProducts.ProductUpload.HandleChange | src/components/NewProducts.js:142-156 | the named field takes the value, and a recorded error for it is cleared |
| NewProducts.ProductUpload.HandlePriceChange | src/components/NewProducts.js:158-172 | the price becomes the sanitised input, and a price error is cleared |
| NewProducts.ProductUpload.HandleImageChange | src/components/NewProducts.js:174-199 | the error is cleared; a rejected file sets its message and keeps the old file; an accepted one becomes the file |
| NewProducts.ProductUpload.PreviewLoaded | src/components/NewProducts.js:194-197 | the data URL becomes the preview |
| NewProducts.ProductUpload.RemoveImage | src/components/NewProducts.js:489-492 | the preview and the file are cleared |
| NewProducts.ProductUpload.ValidateForm | src/components/NewProducts.js:201-233 | the errors become the rule messages, and the result holds exactly when the form is valid |
| NewProducts.ProductUpload.ValidateImage | src/components/NewProducts.js:235-241 | succeeds exactly when a file and a preview are present, and otherwise sets "Please upload an image" |
| NewProducts.ProductUpload.HandleNext | src/components/NewProducts.js:243-248 | advances one step, except from step 0 with an invalid form or from step 1 without an image; the step stays within 0..2 |
| NewProducts.ProductUpload.HandleBack | src/components/NewProducts.js:250-252 | goes back one step, never below 0 |
| NewProducts.ProductUpload.HandleReset | src/components/NewProducts.js:254-271 | step 0, empty form, no image, no errors |
| NewProducts.ProductUpload.HandleSave | src/components/NewProducts.js:273-303 | the catalog becomes the existing list plus the new item; the item goes first in the recent list (at most four); the dialog opens; the form resets |
| NewProducts.ProductUpload.CloseSuccessDialog | src/components/NewProducts.js:305-307 | the success dialog closes |
| NewProducts.ProductUpload.AddAnotherProduct | src/components/NewProducts.js:796-800 | the dialog closes and the wizard is on step 0 |

The class invariants hold across every handler:

- **Order screens.** `Valid`: the cart holds no two lines for one item and no quantity below one.
- **History.** `Valid`: the shown list is always the stored list filtered by the current criteria.
- **Wizard.** `Valid` has four parts:
  - the step is within 0..2;
  - the price text holds only digits and dots;
  - the recent list holds at most four items;
  - every step after the first has a valid form, and the last step has an image.

## Left out

- **UI.** JSX, MUI styling, routing, dialogs and snackbars beyond their open/message fields,
  `handleCloseSnackbar`, `viewInvoice`/`handlePrintInvoice` navigation, and the XLSX/file-saver
  export of the history. These are presentation or file I/O.
- **Other files.** `src/components/Invoice.js` is not part of this model: it displays stored fields
  and prints. `src/a.js` (a service worker using the Cache and fetch APIs) is not part of this
  model either.
- **Asynchronous storage.** The asynchronous `localforage` calls, the `setTimeout` delays, and the
  race between reading and writing `orderHistory` are not modelled. Each load or save is one step
  over a value passed in and returned.
- **Clock and date parsing.** `Date.now()`, `new Date().toISOString()` and dayjs parsing are not
  modelled. Ids and dates are parameters, and stored dates are already millisecond timestamps.
- **Alert.** The `alert` after the single-page screen's save is not modelled.
- **Floating point.** Money is exact `real`, so IEEE-754 rounding is not modelled, and neither is
  `toFixed` in the views.
- **Records from elsewhere.** Records with a missing or non-string name or table, and ids that are
  not whole numbers, are not modelled: every record either screen writes has all of these.
- NewProducts.ParsePrice: models `parseFloat` only on text made of digits and dots. That is the
  only text the price field can hold, so exponents, signs, "Infinity" and leading whitespace are
  not modelled.
- OrderHistory.MatchesSearch, OrderHistory.GetInitials and NewProducts.Blank: `toLowerCase`,
  `toUpperCase` and `trim` work on UTF-16 code units in the source. The model maps case for ASCII
  letters only, so non-ASCII case mapping is not modelled. Trimming uses the full ECMAScript whitespace and line-terminator
  set. Lengths count characters, not UTF-16 units.
- NewOrder.OrderSystem.RemoveFromOrder: removing an id that is not in the cart makes the
  `setOrderItems` updater throw a TypeError. Nothing catches it and the app has no error boundary,
  so the component tree unmounts. The model reports this as `failed` and leaves the state
  unchanged; the loss of the mounted screen state is not modelled.
- NewProducts.ProductUpload.HandleSave: the `catch` that logs a storage failure is not modelled.
- NewProducts.ProductUpload.PreviewLoaded: the `FileReader` that produces the data URL is not
  modelled, so the preview arrives as a separate event with the URL as a parameter.
- OrderHistory.OrderHistoryView.Load: `history.reverse()` reverses the stored array in place. The
  model reverses a sequence value, so aliasing of that array is not modelled.
- **Wizard preconditions.** The wizard handlers require the step on which the UI shows their
  control. The model does not say what happens if one were invoked on another step.
- **Default menu descriptions.** The single-page screen's default items have no `description`
  field. In the model that field is the empty string.
