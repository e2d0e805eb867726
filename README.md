# FiloSharp storefront, modelled in Dafny

FiloSharp is a React storefront for artisanal knives. This project models the parts of it that carry state and compute values:

- **the cart** (`CartContext.tsx`): an ordered list of line items keyed by id, with the operations `addItem`, `updateQuantity`, `removeItem` and `clearCart`; the totals derived after every change; the copy kept under the `cart` storage key;
- **the knife customizer** (`CustomKnife.tsx`):
  - the configuration record and its price;
  - the one-field update `updateConfig`;
  - the summary text;
  - the engraving placement table;
  - `adjustBrightness`;
  - the six-step wizard;
  - the drag controller of the preview;
  - the cart line a finished knife becomes;
- **the product store** (`api.ts`): a whole-document read and replace of the remote product list, with `get`, `getById`, `delete`, `post` and `put`;
- **the shop listing** (`Shop.tsx`): attribute filters, pages of twelve, the pagination bar with its window of page numbers and ellipses, and the de-duplicated filter menus;
- **the administrator's product form** (`ProductForm.tsx`): the validation rules, the change handler with its error clearing, and the create-or-update submit;
- **the product page** (`ProductDetail.tsx`): loading the product, the quantity stepper, adding the chosen quantity to the cart, and the related products;
- **the session** (`AuthContext.tsx`): mocked login, register and logout, and the state restored from storage;
- **the route table and its guard** (`AppRoutes.tsx`).

## How it is laid out

Each module follows one source file.

- Code that only computes becomes datatypes, functions and lemmas.
- Components that change their own state become classes:
  - `Cart.CartProvider`, `Configurator.CustomKnifePage`, `Configurator.KnifeViewer`;
  - `Products.ProductStore`, `Shop.ShopPage`, `ProductForm.ProductFormPage`, `ProductDetail.ProductDetailPage`;
  - `Auth.AuthProvider`.
- A React state update together with the effect it triggers is one method. For example, `setItems` plus the totals and save effect is `Cart.CartProvider.SetItems`. An effect runs only when one of its dependencies changes: `Shop.ShopPage.CategoryChange` runs the filter effect only when the selected category is different, while every successful fetch stores a new array and so always runs it. The provider's mount effect is the exception: `Auth.AuthProvider.RestoreEffect` is a method of its own, because the guard's redirect runs between the signed-out first commit and the restore.
- Each method is specified by the function that computes its new state. The lemmas beside that function state what the source promises about it.
- The loops and step-by-step accumulations of the source stay loops or step-by-step methods:
  - `getVisiblePages` in `Shop.GetVisiblePages`;
  - the add-to-cart loop in `ProductDetail.ProductDetailPage.HandleAddToCart`;
  - the price accumulation (a chain of `if`s adding surcharges) in `Knife.ComputePrice`;
  - the summary parts in `Knife.CreateCustomSummary`;
  - the narrowing filters in `Shop.ApplyFilters`;
  - the chain of checks filling the error object in `ProductForm.ValidateForm`.
- The JavaScript operations the source relies on are written out:
  - `parseInt` is `Products.ParseInt` and `Color.ParseHex` (with its sign; `Color.ParseHexDigits` reads the digits), where `None` stands for NaN;
  - `slice` clamping is `Lists.Slice`;
  - ToInt32 for `>>` and `&` is `Color.ToInt32`;
  - `trim` is `ProductForm.Trim`;
  - `[...new Set(xs)].filter(Boolean)` is `Shop.OptionList`;
  - `split('/').pop()` is `Products.LastSegment`, and `split('/')` is `Routes.Split`.

`wrappers.dfy` holds `Option` and `Result`. `lists.dfy` holds the list helpers shared by several modules: filter, subsequence, slice and join.

## Model

| member | source | states |
|---|---|---|
| Cart.MapMatching | src/context/CartContext.tsx:67-69 | the mapped list has the same length; each line with the id has its quantity transformed and every other line is unchanged |
| Cart.AddTo | src/context/CartContext.tsx:61-75 | a new id is appended as the last line with quantity 1 and the rest kept; an existing id gets one more unit on its line and nothing else changes |
| Cart.QuantitySet | src/context/CartContext.tsx:83-87 | the line with the id takes the given quantity, all other lines unchanged, same length |
| Cart.Removed | src/context/CartContext.tsx:90-92 | the filtered list is no longer than the cart and no line of it has the removed id (order and multiplicity: `Cart.RemovedSpec`) |
| Cart.TotalItems | src/context/CartContext.tsx:51 | with every quantity at least 1 (the cart invariant) the item total is at least the number of lines; how it moves under each operation: `Cart.TotalsAppend`, `Cart.ItemsIncrement` |
| Cart.TotalPrice | src/context/CartContext.tsx:52 | no contract of its own: the price reduction is specified by `Cart.TotalsAppend`, `Cart.TotalsIncrement` and `Cart.TotalPriceSplit` |
| Cart.TotalsAppend | src/context/CartContext.tsx:49-55 | appending a line adds its quantity to the item total and quantity times price to the price total |
| Cart.TotalsIncrement | src/context/CartContext.tsx:65-69 | incrementing the one line with an id raises the item total by 1 and the price total by that line's unit price |
| Cart.ItemsIncrement | src/context/CartContext.tsx:65-69 | incrementing the one line with an id raises the item total by exactly 1 |
| Cart.PriceIncrement | src/context/CartContext.tsx:65-69 | incrementing the one line with an id raises the price total by exactly that line's unit price |
| Cart.PriceIncrementHere | src/context/CartContext.tsx:65-69 | when the first line carries the id, the price total grows by its unit price |
| Cart.PriceIncrementLater | src/context/CartContext.tsx:65-69 | when the first line does not carry the id, the price total grows by what the rest of the list grows by |
| Cart.TotalPriceSplit | src/context/CartContext.tsx:52 | lists sharing their first line differ in price total exactly as their tails do |
| Cart.AddTotals | src/context/CartContext.tsx:49-75 | after `addItem` the item total grows by exactly 1 and the price total by the existing line's unit price (the first line's price wins on a repeat add) or the new item's price |
| Cart.AddPreservesWellFormed | src/context/CartContext.tsx:61-75 | `addItem` keeps one line per id and every quantity at least 1 |
| Cart.BumpedWellFormed | src/context/CartContext.tsx:61-75 | adding units to the lines of one id keeps one line per id and every quantity at least 1 |
| Cart.AppendWellFormed | src/context/CartContext.tsx:61-75 | appending a line with a new id and a positive quantity keeps the cart invariant |
| Cart.QuantitySetPreservesWellFormed | src/context/CartContext.tsx:77-88 | setting a positive quantity keeps the cart invariant |
| Cart.RemovedSpec | src/context/CartContext.tsx:90-92 | after `removeItem` no line has the id; the rest keep their order and multiplicity; an absent id leaves the list as it was |
| Cart.RemovedPreservesWellFormed | src/context/CartContext.tsx:90-92 | removing keeps one line per id and positive quantities |
| Cart.CartProvider.constructor | src/context/CartContext.tsx:41-59 | mounting rehydrates the stored list (or starts empty) with totals and saved copy matching it |
| Cart.CartProvider.SetItems | src/context/CartContext.tsx:49-59 | after any list change the totals are recomputed from the list and the list is saved |
| Cart.CartProvider.AddItem | src/context/CartContext.tsx:61-75 | the new list is `AddTo` of the old one, with totals and saved copy in step |
| Cart.CartProvider.UpdateQuantity | src/context/CartContext.tsx:77-88 | a quantity of 0 or below removes the line exactly as `removeItem`; a positive one sets it |
| Cart.CartProvider.RemoveItem | src/context/CartContext.tsx:90-92 | the new list is the old one without the id's lines |
| Cart.CartProvider.ClearCart | src/context/CartContext.tsx:94-96 | the cart is empty and both totals are 0 |
| Knife.BasePrice | src/pages/CustomKnife.tsx:519-528 | the base price is between 320 and 550, and an unknown type costs 450 |
| Knife.Price | src/pages/CustomKnife.tsx:518-540 | the price lies between the base price and the base plus 625 (all extras), so between 320 and 1175 |
| Knife.ComputePrice | src/pages/CustomKnife.tsx:528-539 | accumulating the extras one `if` at a time gives exactly the price function |
| Knife.DefaultPriceIsInitial | src/pages/CustomKnife.tsx:472-498 | the default configuration's price equals the initial displayed price 450 |
| Knife.ButcherExample | src/pages/CustomKnife.tsx:518-540 | butcher, damascus, bone, engraving "X", sheath and certificate cost 1045 |
| Knife.UnpricedOptions | src/pages/CustomKnife.tsx:518-540 | certificate, blade length and finish, handle colour and grip, engraving position, font and colour never change the price |
| Knife.SteelHandleIsFree | src/pages/CustomKnife.tsx:707-711 | a steel handle costs the same as wood although the picker displays +50 |
| Knife.HandlePickerAgrees | src/pages/CustomKnife.tsx:707-711 | for wood, carbon and bone the displayed surcharge is exactly what the price adds |
| Knife.UpdateConfig | src/pages/CustomKnife.tsx:542-557 | the updated field holds the new value, every other field keeps its value, and the other sections are untouched |
| Knife.UpdateLaws | src/pages/CustomKnife.tsx:542-557 | writing back a field's current value is a no-op; a second write to a field overrides the first |
| Knife.OverrideLaw | src/pages/CustomKnife.tsx:542-557 | of two writes to the same field only the second remains |
| Knife.AccessoryNames | src/pages/CustomKnife.tsx:453-462 | at most three names, and none exactly when no accessory is chosen |
| Knife.SummaryParts | src/pages/CustomKnife.tsx:442-466 | between three and five parts, always starting with the type, blade and handle parts |
| Knife.Summary | src/pages/CustomKnife.tsx:442-469 | the summary begins with the knife-type part `Cuchillo <type>` (its full shape: `Knife.SummaryShape`) |
| Knife.CreateCustomSummary | src/pages/CustomKnife.tsx:442-469 | pushing the optional parts and joining with " \| " gives the summary function |
| Knife.SummaryShape | src/pages/CustomKnife.tsx:442-469 | the summary starts with "Cuchillo t \| Hoja: m l \| Mango: h"; it has an engraving part exactly when there is text and an accessories part, last, exactly when one is chosen |
| Knife.SummaryOpening | src/pages/CustomKnife.tsx:442-469 | the summary begins with the type, blade and handle parts joined by " \| " |
| Knife.LeadingJoined | src/pages/CustomKnife.tsx:444-468 | the type, blade and handle parts joined by " \| " spell "Cuchillo …", "Hoja: …" and "Mango: …" in that order |
| Knife.BladeTextAnchor | src/pages/CustomKnife.tsx:235-266 | every type's blade anchor lies in x -100..-65, y -8..0, and an unknown type falls back to (-90, 0) |
| Knife.EngravingAnchor | src/pages/CustomKnife.tsx:223-274 | text is drawn only when non-empty and only for the blade or handle position; handle text at (20, 5), blade text at the type's anchor |
| Knife.Capitalize | src/pages/CustomKnife.tsx:598 | same length and tail; a lower-case ASCII first letter becomes its upper-case letter, any other first character is kept |
| Knife.CustomItem | src/pages/CustomKnife.tsx:565-605 | the line has a `custom-knife-` string id, the shown price, `isCustom` true, the summary, and the capitalised title |
| Knife.CustomIdsDistinct | src/pages/CustomKnife.tsx:565 | knives committed at different clock readings get different ids, so they never merge in the cart |
| Color.ParseHex | src/pages/CustomKnife.tsx:434 | `parseInt(hex, 16)` takes an optional `-` or `+` sign; it is NaN exactly when no hex digit follows the sign; the value is never negative without a `-` and never positive with one |
| Color.ParseHexDigits | src/pages/CustomKnife.tsx:434 | the leading hex digits are absent exactly when the text is empty or does not start with a hex digit |
| Color.ParseHexSign | src/pages/CustomKnife.tsx:434 | a `-` negates the digits' value, a `+` keeps it, and unsigned text is read as its digits |
| Color.RemoveFirstHash | src/pages/CustomKnife.tsx:433 | text without `#` is unchanged, and a leading `#` is dropped |
| Color.ToInt32 | src/pages/CustomKnife.tsx:435-437 | the shift operand is a signed 32-bit value: 0 for NaN, otherwise congruent to the number modulo 2^32 (the wrap-around) and equal to it when it fits |
| Color.Clamp | src/pages/CustomKnife.tsx:435-437 | the result is within 0..255 and values already in range are kept |
| Color.ToHex | src/pages/CustomKnife.tsx:438 | `toString(16)` yields at least one lower-case hex digit |
| Color.PadStart | src/pages/CustomKnife.tsx:438 | the padded text is at least the width long and never shorter than the input |
| Color.ToHexSpec | src/pages/CustomKnife.tsx:438 | hex output reads back to the number and uses at most k digits below 16^k |
| Color.SixDigits | src/pages/CustomKnife.tsx:438 | a 24-bit colour prints as exactly six digits that read back as the value |
| Color.AdjustBrightnessSpec | src/pages/CustomKnife.tsx:432-439 | for any input the result is `#` plus six lower-case digits whose pairs are the clamped adjusted channels of the number the hex digits spell, read exactly (the browser rounds beyond 13 digits: see Left out) |
| Color.AdjustWellFormed | src/pages/CustomKnife.tsx:432-439 | for a `#rrggbb` colour each output pair is the input pair plus the amount, clamped to 0..255 |
| Color.ChannelsOfBytes | src/pages/CustomKnife.tsx:432-439 | the three channels read from a three-byte number are its bytes, each moved by the amount and clamped |
| Color.AdjustBrightness | src/pages/CustomKnife.tsx:432-439 | the result is `#` followed by at least six characters, whatever the input (exactly six hex digits, and their meaning: `Color.AdjustBrightnessSpec`) |
| Color.Channels | src/pages/CustomKnife.tsx:435-437 | whatever was parsed, each of the three channels is a byte |
| Color.RenderSpec | src/pages/CustomKnife.tsx:438 | three bytes print as `#` and six lower-case digits whose pairs read back as those bytes |
| Color.ReadWellFormed | src/pages/CustomKnife.tsx:433-434 | a `#rrggbb` colour is parsed as the number its three hex pairs spell, each pair a byte |
| Color.ParseAllHex | src/pages/CustomKnife.tsx:434 | text made only of hex digits is read whole |
| Color.JoinPairs | src/pages/CustomKnife.tsx:434-437 | three hex pairs spell the number whose bytes they are, high byte first |
| Configurator.PreviousStep | src/pages/CustomKnife.tsx:993 | "Anterior" moves one step back and never below step 0 |
| Configurator.NextStep | src/pages/CustomKnife.tsx:1000 | "Siguiente" moves one step forward and never past the last step |
| Configurator.NextRepeatedStops | src/pages/CustomKnife.tsx:1000 | pressing "Siguiente" n times lands on min(step + n, 5): clamped, not wrapped |
| Configurator.CustomKnifePage.constructor | src/pages/CustomKnife.tsx:471-498 | the page starts at step 0 with the default configuration and price 450, consistent with the price effect |
| Configurator.CustomKnifePage.Previous | src/pages/CustomKnife.tsx:993 | the step becomes the previous step and stays valid |
| Configurator.CustomKnifePage.Next | src/pages/CustomKnife.tsx:1000 | the step becomes the next step and stays valid |
| Configurator.CustomKnifePage.GoToStep | src/pages/CustomKnife.tsx:964 | a progress-bar click jumps straight to that step |
| Configurator.CustomKnifePage.Update | src/pages/CustomKnife.tsx:518-557 | the configuration is updated one field and the displayed price follows the new configuration |
| Configurator.CustomKnifePage.AddToCart | src/pages/CustomKnife.tsx:560-618 | the cart receives the knife's line through `addItem`, the success modal opens, and the configuration and price are kept |
| Configurator.CommittedLine | src/pages/CustomKnife.tsx:596-607 | a committed knife is a new last cart line with quantity 1, `isCustom`, the shown price and the summary |
| Configurator.KnifeViewer.constructor | src/pages/CustomKnife.tsx:139-141 | rotation 0, not dragging, last position 0 |
| Configurator.KnifeViewer.MouseDown | src/pages/CustomKnife.tsx:291-294 | starts a drag at the pointer without changing the rotation |
| Configurator.KnifeViewer.MouseMove | src/pages/CustomKnife.tsx:296-308 | while dragging, vertical movement adds to the x rotation and horizontal to the y rotation, so the rotation is the drag's starting rotation plus the total pointer displacement; otherwise nothing moves |
| Configurator.KnifeViewer.MouseUp | src/pages/CustomKnife.tsx:310-312 | ends the drag and keeps the rotation |
| Products.MaxId | src/services/api.ts:119-120 | the maximum is one of the ids and no id exceeds it |
| Products.NewId | src/services/api.ts:119-121 | the new id is larger than every stored id (so unused), is 1 for an empty list and one more than the largest id otherwise |
| Products.FindById | src/services/api.ts:57 | `find` answers nothing exactly when no product has the id, otherwise the first product with it |
| Products.Merge | src/services/api.ts:153 | for each of the nine fields, a value the data carries overrides the stored one and an omitted field keeps the stored value; an empty patch changes nothing |
| Products.MergeMatching | src/services/api.ts:152-154 | the products with the id are merged, all others are unchanged, and the length is kept |
| Products.WithId | src/services/api.ts:123 | the stored product carries the new id and each of the data's eight other fields |
| Products.LastSegment | src/services/api.ts:145 | the popped segment is the longest `/`-free suffix of the endpoint: a `/` precedes it unless it is the whole text |
| Products.SegmentStart | src/services/api.ts:145 | the popped segment begins just past the last `/` of the endpoint, or at its start when it has none: nothing after that point is a `/` |
| Products.Decimal | src/pages/CustomKnife.tsx:565 | a number renders as at least one decimal digit |
| Products.DecimalRoundTrip | src/pages/CustomKnife.tsx:565 | the rendered digits read back as the number |
| Products.IntString | src/pages/ProductDetail.tsx:420 | an id renders as non-empty text without `/`, a single URL segment |
| Products.ParseIntRoundTrip | src/pages/ProductDetail.tsx:39 | `parseInt` of a rendered id gives the id back |
| Products.LeadingDigits | src/pages/ProductDetail.tsx:39 | there is no leading number exactly when the text is empty or does not start with a digit |
| Products.ParseSigned | src/pages/ProductDetail.tsx:39 | `parseInt` reads the leading digits as they are, with a `+` sign, and negated after a `-` sign |
| Products.DecimalRead | src/pages/ProductDetail.tsx:39 | the leading digits of a rendered number are read back as that number |
| Products.AllDigitsRead | src/pages/ProductDetail.tsx:39 | a string made only of digits is read to its end |
| Products.ParseInt | src/pages/ProductDetail.tsx:39 | a number is read only from non-empty text; a negative one only after a leading `-`; text starting with a digit always gives a number (its value: `Products.ParseSigned`, `Products.ParseIntRoundTrip`) |
| Products.PutTarget | src/services/api.ts:145 | an endpoint ending in `/` falls back to `'0'` and targets id 0 (the target of an edit endpoint: `Products.EditEndpointTargetsRouteId`) |
| Products.SingleDigitRead | src/services/api.ts:145 | a single digit is read as its value |
| Products.ProductStore.constructor | src/services/api.ts:14 | the store holds the initial document |
| Products.ProductStore.Get | src/services/api.ts:16-41 | `/products` answers the whole list; any other endpoint is the "Endpoint no encontrado" error |
| Products.ProductStore.GetById | src/services/api.ts:44-68 | succeeds exactly when some product has the id, answering the first one; otherwise "Error al obtener el producto" |
| Products.ProductStore.Delete | src/services/api.ts:91-108 | the document is replaced by the list without that id's products |
| Products.ProductStore.Post | src/services/api.ts:111-139 | `/products` appends the data under a fresh id and answers it; other endpoints fail and leave the document |
| Products.ProductStore.Put | src/services/api.ts:142-168 | an endpoint under `/products/` merges the data into the targeted products and answers the first one after; a NaN target changes nothing and answers undefined; other endpoints fail |
| Products.WithoutIdSpec | src/services/api.ts:98 | `delete` drops exactly that id's products, keeps the others in order and multiplicity, and is a no-op for an absent id |
| Products.PutAnswersMerged | src/services/api.ts:152-160 | when the data keeps the id, `put` answers the merge of the first stored product with that id, or undefined |
| Products.EditEndpointTargetsRouteId | src/pages/admin/ProductForm.tsx:175-178 | the edit endpoint built from any non-empty route id is accepted by `put` and targets what `put` reads from the route id's own last segment; for a route id without `/` that is `parseInt` of the route id |
| Products.SegmentStartAfterPrefix | src/services/api.ts:145 | prefixing text that holds a `/` moves the start of its last segment by the prefix's length |
| Products.LastOfThreeFour | src/services/api.ts:145 | the last segment of `3/4` is `4` |
| Products.FirstOfThreeFour | src/pages/admin/ProductForm.tsx:177 | `parseInt("3/4")` is 3 |
| Products.SlashedRouteIdTargets | src/pages/admin/ProductForm.tsx:175-178 | the route id `3/4` puts to product 4 while the form stamps the data with id 3 |
| Shop.Run | src/pages/Shop.tsx:24-28 | the range holds the consecutive pages lo..hi and is empty when lo > hi |
| Shop.VisiblePages | src/pages/Shop.tsx:19-45 | the bar has at least two entries (page 1 and the last page) and never more than nine: a window of at most five pages and two ellipses (its ends and ellipses: `Shop.VisiblePagesEnds`; its page numbers: `Shop.VisiblePagesNumbers`) |
| Shop.GetVisiblePages | src/pages/Shop.tsx:19-45 | the loop and pushes build exactly the bar function |
| Shop.VisiblePagesEnds | src/pages/Shop.tsx:30-42 | the bar starts with page 1 and ends with the last page; it has an ellipsis after page 1 exactly when current-2 > 2, and before the last page exactly when current+2 < total-1 |
| Shop.VisiblePagesNumbers | src/pages/Shop.tsx:19-45 | the page numbers shown are 1, the window around the current page and the last page, strictly increasing (no page twice) |
| Shop.Pagination | src/pages/Shop.tsx:47-94 | nothing is rendered for at most one page; otherwise "previous" is disabled exactly on page 1 and "next" exactly on the last |
| Shop.ApplyFilters | src/pages/Shop.tsx:162-174 | narrowing by each active filter in turn equals filtering once by all of them |
| Shop.Filtered | src/pages/Shop.tsx:159-178 | the filtered list is no longer than the catalogue and every product in it matches every active filter (order and multiplicity: `Shop.FilteredSpec`) |
| Shop.FilteredSpec | src/pages/Shop.tsx:159-178 | the filtered list keeps catalogue order, holds only matching products and each as often as the catalogue, and is the whole catalogue with no filter |
| Shop.TotalPages | src/pages/Shop.tsx:188 | the page count is the smallest number of 12-product pages that hold every product |
| Shop.PageItems | src/pages/Shop.tsx:181-185 | a page holds at most 12 products, the ones at positions (page-1)*12 onward |
| Shop.EveryProductOnItsPage | src/pages/Shop.tsx:181-188 | every filtered product appears on the page its position gives, within 1..totalPages |
| Shop.Distinct | src/pages/Shop.tsx:139-141 | the `Set` spread has no duplicates and holds exactly the values not already seen |
| Shop.OptionList | src/pages/Shop.tsx:139-141 | an option list is no longer than the column and never holds the empty value (each value once: `Shop.OptionListSpec`) |
| Shop.OptionListSpec | src/pages/Shop.tsx:139-141 | an option list holds each non-empty value once and nothing else |
| Shop.ColumnOptionsSpec | src/pages/Shop.tsx:139-141 | an attribute's options are exactly the non-empty values some product has, each once |
| Shop.ColumnHas | src/pages/Shop.tsx:139-141 | the mapped column holds a value exactly when some product has it for that attribute |
| Shop.OptionListsSpec | src/pages/Shop.tsx:139-145 | the category, material and type menus list every non-empty value present, once |
| Shop.ShopPage.constructor | src/pages/Shop.tsx:108-125 | empty catalogue, page 1, and the URL's filter parameters |
| Shop.ShopPage.FilterEffect | src/pages/Shop.tsx:159-185 | with no catalogue nothing happens (filtered list, page and shown products kept); otherwise the list is refiltered, the page resets to 1 and the shown products follow |
| Shop.ShopPage.Load | src/pages/Shop.tsx:128-156 | a successful fetch stores the catalogue and its menus and, when it is not empty, filters it from page 1 (an empty one leaves the filtered list, page and shown products); a failure records the error and changes nothing else |
| Shop.ShopPage.Refresh | src/pages/Shop.tsx:227-235 | a successful fetch replaces the catalogue and, when it is not empty, refilters it from page 1; a failure or an empty catalogue leaves the filtered list, page and shown products, and a failure keeps the catalogue |
| Shop.ShopPage.CategoryChange | src/pages/Shop.tsx:190-198 | a truthy category sets the parameter, anything else removes it; the filter effect runs only when the selection changed, refiltering from page 1 when there is a catalogue; otherwise the filtered list, page and shown products are kept |
| Shop.ShopPage.MaterialChange | src/pages/Shop.tsx:200-208 | as for category, on the material parameter: refiltered from page 1 only when the selection changed and there is a catalogue, unchanged listing otherwise |
| Shop.ShopPage.TypeChange | src/pages/Shop.tsx:210-218 | as for category, on the type parameter: refiltered from page 1 only when the selection changed and there is a catalogue, unchanged listing otherwise |
| Shop.ShopPage.ClearFilters | src/pages/Shop.tsx:354 | all parameters are removed; when some filter was set and there is a catalogue the whole catalogue is listed from page 1, otherwise the listing is kept |
| Shop.ShopPage.PageChange | src/pages/Shop.tsx:220-224 | the current page changes and the shown products are that page |
| ProductForm.LeadingSpace | src/pages/admin/ProductForm.tsx:83 | counts exactly the leading white space |
| ProductForm.Trim | src/pages/admin/ProductForm.tsx:83 | trimming never lengthens the text |
| ProductForm.TrimSpec | src/pages/admin/ProductForm.tsx:83-126 | the trimmed text is the original minus leading and trailing white space, with no white space at either end, and empty exactly when the original is all white space |
| ProductForm.TrimPiece | src/pages/admin/ProductForm.tsx:83 | the trimmed text sits right after the leading white space, with only white space after it |
| ProductForm.TrimEdges | src/pages/admin/ProductForm.tsx:83 | the trimmed text neither starts nor ends with white space |
| ProductForm.CollectSpec | src/pages/admin/ProductForm.tsx:79-127 | checking distinct fields records exactly the failing ones with their messages and keeps earlier entries |
| ProductForm.CheckOrderComplete | src/pages/admin/ProductForm.tsx:82-126 | every field is checked exactly once |
| ProductForm.ValidateForm | src/pages/admin/ProductForm.tsx:79-130 | the error map holds exactly the failing fields with their messages, and the form is valid exactly when all rules pass and the map is empty |
| ProductForm.ErrorsSpec | src/pages/admin/ProductForm.tsx:79-130 | checking every field in order yields exactly the failing fields' messages, an empty map exactly when the form passes |
| ProductForm.PassesSpec | src/pages/admin/ProductForm.tsx:79-126 | a form passes exactly when the trimmed title has 3+ characters, the trimmed description 10+, the price is positive, image 1 is a valid non-blank URL, image 2 is blank or valid, and category, material and type are non-blank |
| ProductForm.LengthRulesSpec | src/pages/admin/ProductForm.tsx:83-111 | the "obligatorio" message appears exactly for blank text, the length message exactly for short non-blank text, and image 2 errs only when non-blank |
| ProductForm.Rule | src/pages/admin/ProductForm.tsx:79-130 | the title rule passes exactly when the trimmed title has 3+ characters, the description rule at 10+, image 1 exactly when it is non-blank and a valid URL, image 2 exactly when it is blank or a valid URL (the messages: `ProductForm.LengthRulesSpec`) |
| ProductForm.PaddedTitle | src/pages/admin/ProductForm.tsx:83-87 | padding a title with white space never changes its verdict |
| ProductForm.Parsed | src/pages/admin/ProductForm.tsx:146 | the price input stores `parseFloat(text) \|\| 0` (0 for NaN), and every other input stores the text |
| ProductForm.SetField | src/pages/admin/ProductForm.tsx:144-147 | the named field takes the value and every other field is kept |
| ProductForm.SetFieldLaws | src/pages/admin/ProductForm.tsx:144-147 | typing twice keeps the second value; retyping the current value changes nothing |
| ProductForm.ToPatch | src/pages/admin/ProductForm.tsx:175-178 | merged into any stored product, the update gives the parsed route id and the form's eight other fields; a NaN id is not stamped (admitted under Left out) |
| ProductForm.ProductFormPage.constructor | src/pages/admin/ProductForm.tsx:25-45 | for any route id (decoded, so possibly holding `/`): empty form, no errors, no messages |
| ProductForm.ProductFormPage.FetchProduct | src/pages/admin/ProductForm.tsx:47-77 | when editing, a found product fills the form; a missing one (or a NaN id) keeps the form and shows the load error; not editing, nothing happens |
| ProductForm.ProductFormPage.HandleChange | src/pages/admin/ProductForm.tsx:141-156 | the one input's value is stored, and only that input's non-empty error is blanked |
| ProductForm.ProductFormPage.HandleSubmit | src/pages/admin/ProductForm.tsx:158-197 | the error map shown holds exactly the failing fields, each with its rule's message; an invalid form leaves the store and shows the correction message; a valid one is posted as a new product, or, when editing, merged into the products `put` targets from the endpoint's last segment (the route id's own product when it holds no `/`), with the matching success message; a route id not starting with a number stamps no id (admitted under Left out) |
| ProductForm.SlashedRouteIdDuplicatesId | src/pages/admin/ProductForm.tsx:175-178 | submitting the route id `3/4` stamps product 4 with id 3, so products 3 and 4 both carry id 3 |
| ProductForm.ParsedIdEndpoint | src/pages/admin/ProductForm.tsx:175-178 | the endpoint built from a parsed id starts with `/products/`, so `put` accepts it |
| ProductForm.ParsedIdEditKeepsIds | src/pages/admin/ProductForm.tsx:175-178 | with the endpoint built from the parsed id, `put` targets exactly the id the data carries and every product keeps its id |
| ProductDetail.AddRepeatedlyExisting | src/pages/ProductDetail.tsx:70-77 | n adds of an id already in the cart raise its line by n and leave every other line |
| ProductDetail.AddRepeatedlyNew | src/pages/ProductDetail.tsx:70-77 | n ≥ 1 adds of a new id append one line with quantity n |
| ProductDetail.AddOneMore | src/pages/ProductDetail.tsx:70-77 | one more add of an id the cart lacked raises its appended line by one unit |
| ProductDetail.AddRepeatedlyWellFormed | src/pages/ProductDetail.tsx:70-77 | repeated adds keep one line per id and positive quantities |
| ProductDetail.AddToCartEffect | src/pages/ProductDetail.tsx:67-87 | adding a positive quantity leaves a well-formed cart where the product's line grew by that quantity or is a new last line holding it with the product's id, title, price and first image |
| ProductDetail.StepperStaysInRange | src/pages/ProductDetail.tsx:274-289 | from a quantity within 1..10, any sequence of − and + presses stays within 1..10 |
| ProductDetail.Related | src/pages/ProductDetail.tsx:396-400 | at most four related products, each in the current product's category and with another id (order and prefix: `ProductDetail.RelatedSpec`) |
| ProductDetail.RelatedSpec | src/pages/ProductDetail.tsx:398-400 | related products are at most four, share the category, exclude the current id, keep catalogue order, and are the first four candidates |
| ProductDetail.RelatedLinkAsWrittenIsNotFound | src/pages/ProductDetail.tsx:420 | the related-product link as written resolves to the not-found page for every id and session |
| ProductDetail.RelatedLinkAsWritten | src/pages/ProductDetail.tsx:420 | the link as written is a location path (it starts with `/`) |
| ProductDetail.RelatedLinkOpensProduct | src/routes/AppRoutes.tsx:51 | the `/products/<id>` link opens the product page for that id, and the page reads the same id back |
| ProductDetail.RelatedLink | src/pages/ProductDetail.tsx:420 | the corrected link is a location path (it starts with `/`) |
| ProductDetail.ProductDetailPage.constructor | src/pages/ProductDetail.tsx:22-28 | no product, no image, quantity 1, no notification |
| ProductDetail.ProductDetailPage.FetchProduct | src/pages/ProductDetail.tsx:33-60 | with a non-empty route id, a found product is shown with its first image; otherwise the page is unchanged |
| ProductDetail.ProductDetailPage.HandleQuantityChange | src/pages/ProductDetail.tsx:62-64 | the quantity is `parseInt` of the input (NaN allowed) |
| ProductDetail.ProductDetailPage.Decrement | src/pages/ProductDetail.tsx:274 | the quantity goes down only above 1 and stays in range |
| ProductDetail.ProductDetailPage.Increment | src/pages/ProductDetail.tsx:289 | the quantity goes up only below 10 and stays in range |
| ProductDetail.ProductDetailPage.HandleAddToCart | src/pages/ProductDetail.tsx:67-87 | with a product, `addItem` is applied once per unit of the quantity and the notification shows; a NaN or non-positive quantity leaves the cart, totals and saved copy as they were; without a product nothing changes |
| Routes.SegmentLength | src/routes/AppRoutes.tsx:50-113 | the first segment ends at the first `/` or at the end |
| Routes.TrimTrailingSlashes | src/routes/AppRoutes.tsx:50-113 | the result is a prefix of the text that does not end in `/`, and everything cut off is `/` |
| Routes.Split | src/routes/AppRoutes.tsx:50-113 | `split('/')` gives at least one piece and no piece holds a `/` |
| Routes.SegmentLengthOf | src/routes/AppRoutes.tsx:50-113 | a `/`-free word followed by nothing or by `/` is exactly the first segment |
| Routes.SplitOne | src/routes/AppRoutes.tsx:50-113 | text without `/` splits into itself alone |
| Routes.SplitCons | src/routes/AppRoutes.tsx:50-113 | a `/`-free word before a `/` is the first piece, followed by the pieces of the rest |
| Routes.SegmentsNoTrailing | src/routes/AppRoutes.tsx:50-113 | a path not ending in `/` is split after its leading `/` as it is |
| Routes.SegmentsOfOne | src/routes/AppRoutes.tsx:50-113 | `/a` for a non-empty `/`-free word is the single segment a |
| Routes.Segments | src/routes/AppRoutes.tsx:50-113 | the segments the patterns are compared with are free of `/` |
| Routes.Lookup | src/routes/AppRoutes.tsx:50-113 | a product or edit page carries the non-empty segment in its `:id` position; only `/checkout` and `/admin` paths are guarded; the not-found page is never guarded |
| Routes.Guard | src/routes/AppRoutes.tsx:26-44 | the guard renders only the page it wraps and only for a signed-in user, and redirects only to `/login` or `/` (its three answers: `Routes.GuardSpec`) |
| Routes.Navigate | src/routes/AppRoutes.tsx:26-113 | every redirect goes to `/login` or `/`, and a product page's id is non-empty and free of `/` |
| Routes.Resolve | src/routes/AppRoutes.tsx:26-113 | only a protected route can redirect, and a shown page is the one the table matched |
| Routes.GuardSpec | src/routes/AppRoutes.tsx:26-44 | a visitor goes to `/login`, a non-admin on an admin route goes to `/`, and the page renders exactly when logged in and (no admin role needed or admin) |
| Routes.CheckoutNeedsLogin | src/routes/AppRoutes.tsx:57-64 | `/checkout` renders for any signed-in user and redirects visitors to login |
| Routes.AdminRoutesRequireAdmin | src/routes/AppRoutes.tsx:67-110 | every matched `/admin` route requires the admin role, and the admin pages are exactly those routes |
| Routes.AdminPagesOnlyForAdmins | src/routes/AppRoutes.tsx:26-110 | an admin page is only ever shown to a signed-in admin |
| Routes.PublicPaths | src/routes/AppRoutes.tsx:50-54 | home, product, cart, login and register render whatever the session |
| Routes.UnknownPathsNotFound | src/routes/AppRoutes.tsx:113 | an unknown first segment or too many segments fall through to not-found |
| Routes.RouteParameters | src/routes/AppRoutes.tsx:51-101 | the `:id` handed to a page is one whole non-empty segment of the raw path, free of `/` |
| Routes.RedirectsSettle | src/routes/AppRoutes.tsx:31-40 | a redirect target always renders a page, so redirects never chain |
| Routes.RedirectTargetsOpen | src/routes/AppRoutes.tsx:50-53 | `/login` shows the login page and `/` the home page, for every session |
| Routes.EmptySegmentNotFound | src/routes/AppRoutes.tsx:50-113 | a path with an empty segment, such as `/products//7`, falls through to not-found |
| Routes.SegmentsOfTwo | src/routes/AppRoutes.tsx:50-113 | a path `/a/b` of two slash-free words is matched as the segments a and b |
| Auth.Restored | src/context/AuthContext.tsx:41-53 | the restored session is consistent; it is signed in exactly when both keys are present (token non-empty), with the admin flag from the role |
| Auth.RestoreRoundTrip | src/context/AuthContext.tsx:41-53 | a consistent session written to storage is restored as itself, and a signed-out one as signed out |
| Auth.AdminImpliesAuthenticated | src/context/AuthContext.tsx:36-39 | the admin flag never holds without a user and token |
| Auth.AuthProvider.constructor | src/context/AuthContext.tsx:35-39 | the first commit is signed out (and consistent) whatever storage holds; storage is kept as given |
| Auth.AuthProvider.RestoreEffect | src/context/AuthContext.tsx:41-53 | after the signed-out mount the state becomes the restored session; with nothing usable stored the state stays; storage is only read and consistency is kept |
| Auth.ReloadOfGuardedPathLandsOnLogin | src/routes/AppRoutes.tsx:26-44 | on the signed-out first commit every guarded path redirects to `/login` (so reloading `/checkout` or an `/admin` page with a stored session lands on `/login`), and `/login` then renders the login page whatever session is restored |
| Auth.AuthProvider.Login | src/context/AuthContext.tsx:55-89 | only admin/admin succeeds, signing in the hard-coded administrator with a fresh token saved to storage; anything else throws "Credenciales incorrectas" and changes nothing |
| Auth.AuthProvider.Register | src/context/AuthContext.tsx:91-120 | always signs in a new regular (non-admin) user with the clock as id, saved to storage |
| Auth.AuthProvider.Logout | src/context/AuthContext.tsx:122-132 | clears the session and both storage keys |
| Auth.ReloadKeepsSession | src/context/AuthContext.tsx:41-132 | after login, register or logout a reload restores the same session |
| Lists.Filter | src/pages/Shop.tsx:162-174 | `filter` never lengthens the list and keeps only elements satisfying the predicate (counts and order: `Lists.FilterCounts`, `Lists.FilterIsSubsequence`) |
| Lists.Slice | src/pages/Shop.tsx:184 | in-range bounds give exactly that slice; the result is never longer than the list or than end minus start, and from a start within the list it is a prefix of the rest from there |
| Lists.Join | src/pages/CustomKnife.tsx:468 | a non-empty list joined begins with its first part |

## Left out

- The canvas drawing of the preview (`drawKnife`): gradients, paths, the damascus pattern, wood grain, shadows, scale factors and the rotation transform. These use floating point and the canvas API. Only the engraving placement table and `adjustBrightness` are modelled.
- Network I/O.
  - The `fetch` calls, HTTP status errors and the `record.products \|\| record` unwrapping are not modelled. The remote document is a field of `Products.ProductStore`.
  - The `updateBin` request and its failure are not modelled.
  - Network failures of the pages enter their methods as a `Result` parameter (`Shop.ShopPage.Load`, `Shop.ShopPage.Refresh`).
- Concurrency: interleaved admin writes to the document (last writer wins) are not modelled; each store method runs alone.
- Local storage is a field of each provider. JSON encoding is not modelled, and malformed stored JSON (which would throw in `JSON.parse`) is outside the model.
- Products.ParseInt: leading white space and the `0x` prefix (which JavaScript reads as hexadecimal) are not modelled; a route id such as `0x10` is read as 0 here, not 16. Precision loss of very long digit strings is not modelled either.
- Color.ParseHex: the sign is modelled, but leading white space and the `0x` prefix are not. The value is exact, while `parseInt` returns a double that is exact only up to 2^53 (13 hex digits): `adjustBrightness('#ffffffffffffff', 0)` reads 2^56 in the browser, whose ToInt32 is 0, and gives `#000000`, where the model reads 2^56 − 1 and gives `#00ffff`. The colours it receives come from the fixed handle-colour table, all of six digits.
- `isValidUrl` (the `URL` constructor) and `parseFloat` are function parameters, not modelled grammars.
- `Date.now()`, `new Date().getTime()` and `Math.random()` are parameters (`now`, `randomSuffix`).
- Loading and submitting flags, timers (notification dismissal, the redirect after saving, the loading delay), scrolling, navigation after save, SEO tags and all markup are not modelled.
- Routes.Segments: segments are not percent-decoded. The router decodes each matched parameter, so `/admin/products/edit/3%2F4` hands the form the id `3/4`. The pages take any id text, so that case is modelled there (`ProductForm.SlashedRouteIdDuplicatesId`).
- Routes.RouteParameters: the `/`-free guarantee is about the raw path; once decoded, an id can hold `/`.
- Routes.Lookup: literal segments are compared exactly, while React Router matches them case-insensitively by default, so `/Cart` opens the cart in the browser and the not-found page here. The `state.from` location passed to the login redirect is not modelled.
- What the login page does when it is shown to a session restored after that redirect (`Auth.ReloadOfGuardedPathLandsOnLogin`) is not part of this model: src/pages/Login.tsx is not part of this model.
- Routes.Navigate: takes only paths that start with `/`, as a location's path always does.
- ProductForm.ToPatch: product ids are integers, so a NaN `parseInt(id)` is sent as no id and the merge keeps the stored id. The browser sends `id: NaN` and `{ ...p, ...data }` writes NaN over the targeted product's id; every later `post` then computes `Math.max(...ids) + 1` as NaN. This case is not modelled.
- ProductForm.ProductFormPage.HandleSubmit: follows the put target as written, including the defect listed under Findings: a decoded route id holding `/` puts to the product named by its last segment and stamps the data with the id parsed from its start. When that start is not a number (the route id `x/4` targets product 4), the browser stamps product 4 with id NaN; here product 4 keeps its id, as `ProductForm.ToPatch` says.
- Configurator.KnifeViewer.MouseDown: pointer coordinates are integers here, while a `MouseEvent`'s `clientX`/`clientY` are doubles (fractional under zoom); fractional positions are not modelled.
- Configurator.KnifeViewer.MouseMove: as for `MouseDown`, movement is in whole pixels, so fractional deltas are not modelled.
- ProductForm.Trim: strings are sequences of Unicode code points, while JavaScript counts UTF-16 code units. A character outside the Basic Multilingual Plane (an emoji) counts once here and twice in the browser, so `"😀😀"` is 2 long here and 4 there.
- ProductForm.LengthRulesSpec: the length rules count code points, as `ProductForm.Trim` does; a title of two emoji fails the 3-character rule here but passes in the browser.
- ProductForm.PaddedTitle: the same code-point counting applies.
- ProductForm.Rule: the same code-point counting applies to the title and description lengths.
- Shop.ShopPage.Refresh: like the source, it does not rebuild the filter menus.
- Configurator.CustomKnifePage.AddToCart: the `catch` branch (error modal) is not modelled. Nothing in the `try` block can throw on these types.
- The checkout page, the admin dashboard, product list and orders pages, the header, the hooks `useAuth`/`useCart` and the cart notification component are not part of this model. The header's `/product/` link has the same defect as the one under Findings.
- `Configurator.CustomKnifePage.GoToStep` requires a valid index. The progress bar only offers the six step indices.
- Engraving text length: the source limits it to 20 characters only through the input's `maxLength` attribute. That limit is markup, so `Knife.UpdateConfig` accepts any text.

## Findings

| source | as written | input that shows it | evidently intended | confidence | as-written member | corrected member |
|---|---|---|---|---|---|---|
| src/pages/ProductDetail.tsx:420 | related products link to `/product/${id}` | any related product, e.g. id 7 gives `/product/7`, which the route table (only `/products/:id`, src/routes/AppRoutes.tsx:51) sends to the not-found page | link to `/products/${id}`, which opens that product | low, not executed; holds only if src/routes/AppRoutes.tsx is the router the app mounts. Every product link in these files uses `/product/` (src/pages/ProductDetail.tsx:420, src/components/common/Header.tsx:139), and paths linked elsewhere (`/shop`, `/knife-types`, `/about`, `/contact`, `/profile`, `/orders`) are missing from that table, so the mounted router may well differ | ProductDetail.RelatedLinkAsWrittenIsNotFound | ProductDetail.RelatedLinkOpensProduct |
| src/pages/admin/ProductForm.tsx:175-178 | the edit puts to `/products/${id}` with the raw route id and stamps the data with `parseInt(id)` | the path `/admin/products/edit/3%2F4` gives the id `3/4`: `put` reads the last segment and overwrites product 4, and `parseInt` stamps it with id 3, so two products carry id 3 | build the endpoint from the parsed id, so the product edited is the one whose id the data carries | low, not executed; needs a hand-typed encoded path | ProductForm.SlashedRouteIdDuplicatesId | ProductForm.ParsedIdEditKeepsIds |
