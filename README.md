# Pharmacy storefront: a verified model of the client logic

This project models the client logic of a Persian-language online pharmacy
built as a single-page React app. It covers:

- the storefront's own state (`App.tsx`): the cart keyed by product id, the
  favourites list, the signed-in customer's address book and the catalogue
  filter;
- the localised price parser, which the cart page, the checkout wizard, the
  product card and the product modal each carry a copy of, and the money
  arithmetic built on it: subtotal, item count, shipping fee, total and the
  struck-through "old price";
- the three-step checkout wizard (address, then shipping, then payment);
- the profile page: Persian digits, order-status badges, the delivery
  timeline, order cancelling, review editing and the tab counts;
- the product modal's gallery and its add/stepper controls;
- the address form: the postal-code sanitiser, the blank-query guard of the
  map search, the browser's field checks and the ordered checks before saving;
- the sign-in dialog's user record, the browser's `required` checks that gate
  it, and its login/signup switch;
- the magazine: related products and paragraph splitting.

There is one module per source file the model covers. Three modules are
shared:

- `Types` holds the records of `types.ts`, plus `Order`, `Review` and
  `BlogPost`. The components use these three but `types.ts` does not declare
  them, so they are rebuilt from the fields the components read.
- `Strings` holds JavaScript's `split`/`join` on one character, with their
  round-trip lemmas.
- `Prices` holds the digit pipeline and the specification it is proved
  against.

That specification is `PriceValue`: the number spelled by the digits of the
string, where ASCII and Persian digits count alike and every other character
is skipped. Each copy of the parser is a method proved equal to
`PriceValue`, so the copies agree on every string.

How the React code is modelled:

- A React state cell is a field of a class. Each handler is a method that
  replaces the field with the value the source's updater computes.
- Each updater (`find`/`map`/`filter`/spread) is a function on values.
- Its promises are proved as lemmas: the invariants it keeps, how it moves
  the subtotal, the count and the quantities the cards show, and its inverse.
- Random ids, today's date, the answer of `window.confirm` and the
  geocoder's reply enter as parameters.

## Model

| member | source | states |
|---|---|---|
| Types.ShippingFromCode | types.ts:36-40 | exactly the codes "jet", "post" and "pickup" decode, each to the method with that code |
| Types.ShippingRoundTrip | types.ts:36-40 | decoding a method's code gives the method back; no two methods share a code |
| Types.PaymentFromCode | types.ts:42-46 | exactly "zarinpal", "saman" and "mellat" decode, each to the gateway with that code |
| Types.PaymentRoundTrip | types.ts:42-46 | decoding a gateway's code gives it back; no two gateways share a code |
| Strings.Split | components/Magazine.tsx:101 | `split` on one character always yields at least one piece |
| Strings.SplitCount | components/Magazine.tsx:101 | a split has one more piece than the string has separators |
| Strings.SplitPiecesFree | components/Magazine.tsx:101 | no piece of a split contains the separator |
| Strings.JoinSplit | components/Cart.tsx:24-26 | joining a split with its separator restores the string |
| Strings.SplitJoin | components/Cart.tsx:24-26 | splitting a join of separator-free pieces gives the pieces back |
| Strings.Replace | components/Cart.tsx:24-26 | replacing one character keeps the length and changes exactly the occurrences of that character |
| Strings.SplitJoinReplaces | components/Cart.tsx:25 | `s.split(a).join(b)` replaces every `a` by `b` and keeps every other character |
| Strings.ContainsEmpty | App.tsx:211-212 | every string contains the empty string, so an empty search matches everything |
| Prices.DigitValue | components/Cart.tsx:19-20 | every ASCII or Persian digit has a value below ten |
| Prices.AsciiDigit | components/Cart.tsx:20 | the ASCII digit for d is an ASCII digit worth d |
| Prices.PersianDigit | components/Cart.tsx:19 | the Persian digit for d is worth d and is not an ASCII digit |
| Prices.DigitTables | components/Cart.tsx:19-20 | the two digit tables hold ten entries each, the d-th worth d |
| Prices.DigitsOf | components/Cart.tsx:16-31 | the digit values read from a string number at most its length, each below ten |
| Prices.DigitsOfAppend | components/Cart.tsx:16-31 | reading digits distributes over concatenation |
| Prices.ValueOfAppend | components/Cart.tsx:30 | the value of concatenated digit lists is the left value shifted by the right length plus the right value |
| Prices.PriceValueAppend | components/Cart.tsx:16-31 | the price of a concatenation is the left price shifted by the right's digit count plus the right price |
| Prices.PersianDigitActsAsAscii | components/Cart.tsx:24-26 | a Persian digit anywhere in the text counts as the ASCII digit of the same value |
| Prices.NonDigitIgnored | components/Cart.tsx:29 | any character that is not a digit, separators and "تومان" included, can be deleted without changing the price |
| Prices.NoDigitsIsZero | components/Cart.tsx:29-30 | a string without digits parses to 0 |
| Prices.CataloguePriceExample | App.tsx:23 | the catalogue price "۴۵۰,۰۰۰ تومان" parses to 450000 |
| Prices.ToEnglishDigits | components/Cart.tsx:24-26 | after the ten passes each character is its image under the passes and the length is unchanged |
| Prices.ReplacePersianDigits | components/Cart.tsx:22-26 | the `for` loop of ten split/join passes computes `ToEnglishDigits` |
| Prices.KeepAsciiDigits | components/Cart.tsx:29 | `replace(/[^0-9]/g, '')` leaves only ASCII digits and never lengthens the text |
| Prices.RegexClassesAgree | components/CheckoutWizard.tsx:27 | `\D` and `[^0-9]` remove the same characters from every string |
| Prices.LeadingDigits | components/Cart.tsx:30 | `parseInt` reads a prefix of its input |
| Prices.LeadingDigitsAll | components/Cart.tsx:30 | on a digits-only string `parseInt` reads all of it |
| Prices.PipelineKeepsDigits | components/Cart.tsx:22-29 | the passes and the filter keep exactly the input's digit values, in order |
| Prices.PipelineMeaning | components/Cart.tsx:16-31 | passes, filter and `parseInt(_, 10) \|\| 0` compute `PriceValue` on every string, 0 when no digits are left |
| Prices.Decimal | components/Profile.tsx:22-24 | the decimal form of a number is a non-empty string of ASCII digits |
| Prices.DecimalRoundTrip | components/Profile.tsx:22-24 | parsing a number's decimal form gives the number back |
| Prices.GetNumericPrice | components/ProductCard.tsx:27-35 | the card's and the modal's parser, without the empty guard, computes `PriceValue` |
| Prices.OldPrice | components/ProductCard.tsx:37-39 | `Math.round(p / (1 - discountPercent / 100))` is the integer within half a unit of 100p/(100 - discountPercent), that is of 20p/17 for the 15% discount; it is never below p, and is 0 exactly when p is 0 |
| Prices.OldPriceNearest | components/ProductCard.tsx:39 | any integer within half a unit of 20p/17 is the old price, so no tie can occur |
| Prices.OldPriceMonotone | components/ProductCard.tsx:39 | a dearer product has an old price at least as high |
| Prices.OldPriceExample | components/ProductDetailModal.tsx:42-44 | the catalogue price 450000 is shown struck at 529412 |
| Prices.ShownPrices | components/ProductDetailModal.tsx:42-44 | the modal shows the parsed price and its 15% old price, the old one never lower |
| App.Ids | App.tsx:151 | the id list follows the cart line by line |
| App.Find | App.tsx:151 | `find` by id succeeds exactly when the id is in the cart, and returns a line with that id |
| App.FindFirst | App.tsx:151 | `find` returns the first line with the id |
| App.Incremented | App.tsx:153-155 | the `map` that bumps a line keeps every id in place |
| App.AddedToCart | App.tsx:149-159 | adding puts the id in the cart, grows the cart only for a new id, and leaves other lines unchanged |
| App.AddExistingBumpsLine | App.tsx:151-155 | adding a product already in line k raises that line's quantity by exactly 1; every other line and the length stay |
| App.AddNewAppends | App.tsx:157 | adding a new product appends the line {product, 1} after the unchanged lines |
| App.AddKeepsValid | App.tsx:149-159 | adding keeps ids unique and every quantity at least 1 |
| App.RemovedFromCart | App.tsx:177-179 | removal keeps exactly the lines with other ids |
| App.RemoveAbsent | App.tsx:177-179 | removing an absent id changes nothing |
| App.RemoveAt | App.tsx:177-179 | removing line k's id from a valid cart drops that line and keeps the others in order |
| App.RemoveKeepsValid | App.tsx:177-179 | removal keeps ids unique and quantities positive |
| App.Max0 | App.tsx:169 | `Math.max(0, x)` is x for positive x and 0 otherwise |
| App.KeepPositive | App.tsx:173 | the filter never lengthens the cart |
| App.KeepPositiveMembers | App.tsx:173 | the filter keeps exactly the lines with a positive quantity |
| App.QuantityUpdated | App.tsx:161-175 | a kept target line has quantity at least 1; the lines with other ids are exactly the old ones with a positive quantity; the cart never grows |
| App.KeepAllPositive | App.tsx:173 | the filter changes nothing on a cart whose quantities are all positive |
| App.KeepConcat | App.tsx:173 | the filter works piecewise on a concatenation |
| App.KeepPositiveAt | App.tsx:173 | on a valid cart with only line k changed, the filter drops at most that line |
| App.UpdateAt | App.tsx:161-175 | on a valid cart, a step on line k sets its quantity to q + delta when that is at least 1, and removes the line otherwise |
| App.UpdateInPlace | App.tsx:167-173 | a step that leaves at least 1 updates line k in place and keeps the cart valid |
| App.UpdateDropsLine | App.tsx:163-173 | a step below 1, minus at quantity 1 included, removes line k and keeps the rest in order |
| App.UpdateAbsent | App.tsx:161-175 | a step on an id not in a valid cart changes nothing |
| App.UpdateKeepsValid | App.tsx:161-175 | every quantity step keeps ids unique and quantities positive |
| App.SumConcat | App.tsx:221 | the left-to-right `reduce` over the lines splits over a concatenation |
| App.SumReplace | App.tsx:221 | replacing line k changes the sum by the difference of that line's terms |
| App.SumDrop | App.tsx:221 | deleting line k takes its term off the sum |
| App.LineQuantity | App.tsx:221 | a line's term in the badge count is its quantity |
| App.CartCount | App.tsx:221 | the badge count is at least the number of lines when every quantity is positive |
| App.CountAtLeastLength | App.tsx:221 | with positive quantities the count is at least the number of lines |
| App.AddCountsOne | App.tsx:149-159 | adding a product raises the badge count by exactly one (also line 221) |
| App.UpdateCountsDelta | App.tsx:161-175 | a step on line k moves the count by delta, or takes the whole quantity off when the line goes (also line 221) |
| App.CartQuantity | App.tsx:252 | the quantity a card or modal is given is 0 for a product not in the cart, and at least 1 exactly for one in a valid cart |
| App.AddShowsOneMore | App.tsx:149-159 | after adding, the product's card shows one more than before (also line 282) |
| App.UpdateShows | App.tsx:161-175 | after a step, the line's card shows max(0, q + delta) (also line 282) |
| App.WithoutFavorite | App.tsx:182 | the filtered favourites lack the id and keep every other entry |
| App.FavoriteToggled | App.tsx:181-183 | toggling flips whether the id is a favourite and leaves every other id's membership |
| App.WithoutAbsent | App.tsx:182 | filtering out an id that is not listed changes nothing |
| App.WithoutAppend | App.tsx:182 | filtering out an id just appended to a list without it gives the list back |
| App.ToggleTwice | App.tsx:181-183 | toggling an absent id twice gives back the original list |
| App.AddressIds | App.tsx:192 | the address id list follows the address book entry by entry |
| App.Replaced | App.tsx:194 | the `map` keeps the book's length and, when the id was in the book, contains the new address |
| App.AddressSaved | App.tsx:190-200 | with no user nothing changes; otherwise only the address book changes and then holds the saved address |
| App.SaveReplacesInPlace | App.tsx:192-194 | saving an address whose id is at index k of a book with unique ids replaces entry k only |
| App.SaveAppends | App.tsx:195 | saving an address with a new id appends it after the unchanged book |
| App.SaveKeepsIds | App.tsx:190-200 | after saving, the book's ids are the old ids plus the saved address's id |
| App.SaveKeepsIdsUnique | App.tsx:190-200 | saving keeps the address ids unique |
| App.WithoutAddress | App.tsx:405 | deleting an address removes exactly the entries with that id and keeps the rest |
| App.AddressDeleted | App.tsx:405 | the delete handler changes only the address book |
| App.ProfileUpdated | App.tsx:406 | the update handler sets the four typed fields and keeps the id and the address book |
| App.LowerAscii | App.tsx:211-212 | lower-casing keeps the length |
| App.FilteredProducts | App.tsx:209-214 | a product is shown exactly when it is in the catalogue, its category is selected ("همه محصولات" selects all), and its name or description contains the query; the shown products keep catalogue order |
| App.NoFilterShowsAll | App.tsx:209-214 | with all categories and an empty query the whole catalogue is shown in order (also line 372) |
| App.Storefront.constructor | App.tsx:97-119 | the cart, favourites and user are whatever storage held; the filters start at all categories and an empty query |
| App.Storefront.AddToCart | App.tsx:149-159 | the cart becomes `AddedToCart` of the old cart; validity is kept and the badge rises by 1 |
| App.Storefront.UpdateQuantity | App.tsx:161-175 | the cart becomes `QuantityUpdated` of the old one and stays valid |
| App.Storefront.RemoveFromCart | App.tsx:177-179 | the cart becomes `RemovedFromCart` of the old one and stays valid |
| App.Storefront.Apply | App.tsx:149-179 | a request from a card, the modal or the cart page runs its handler; the cart stays valid |
| App.Storefront.ToggleFavorite | App.tsx:181-183 | the favourites become `FavoriteToggled` of the old list |
| App.Storefront.SaveAddress | App.tsx:190-200 | the user becomes `AddressSaved` of the old user, address ids staying unique |
| App.Storefront.DeleteAddress | App.tsx:405 | the user becomes `AddressDeleted` of the old user |
| App.Storefront.UpdateProfile | App.tsx:406 | the user becomes `ProfileUpdated` of the old user |
| App.Storefront.SignIn | App.tsx:229 | `onAuthSuccess` makes the new user the current one |
| App.Storefront.Logout | App.tsx:399 | logging out clears the user and nothing else of the modelled state |
| App.Storefront.CompleteCheckout | App.tsx:414-418 | completing the checkout empties the cart, so the badge shows 0 |
| App.Storefront.SelectCategory | App.tsx:337 | a category chip selects that category |
| App.Storefront.SetSearchQuery | App.tsx:315 | the search box sets the query (also line 322) |
| App.Storefront.ClearFilters | App.tsx:372 | "clear filters" shows the whole catalogue again |
| Cart.ParsePersianPrice | components/Cart.tsx:16-31 | the cart page's parser, with its empty guard, computes `PriceValue` |
| Cart.EmptyGuardRedundant | components/Cart.tsx:17 | the empty string parses to 0 with or without the guard |
| Cart.Subtotal | components/Cart.tsx:33-36 | the subtotal of a cart with positive quantities is never negative |
| Cart.LineTotalStep | components/Cart.tsx:35 | changing a line's quantity by d changes its total by d unit prices |
| Cart.SubtotalNonNegative | components/Cart.tsx:33-36 | the `reduce` of price × quantity is non-negative for positive quantities |
| Cart.AddRaisesSubtotal | components/Cart.tsx:33-36 | adding a product raises the subtotal by one unit price: the stored line's when present, else the product's |
| Cart.UpdateMovesSubtotal | components/Cart.tsx:33-36 | a step on line k moves the subtotal by delta unit prices, or takes the line total off when the line goes (also lines 79-89) |
| Cart.GrowingLineRaisesSubtotal | components/Cart.tsx:33-36 | raising a quantity never lowers the subtotal |
| Cart.RemoveLowersSubtotal | components/Cart.tsx:33-36 | the bin takes exactly the line total off the subtotal (also lines 95-99) |
| Cart.Page | components/Cart.tsx:38-53 | an empty cart shows the empty state; otherwise the summary shows the unit count, the subtotal, free shipping and a payable amount equal to the subtotal (also lines 114-130) |
| Cart.LineButtons | components/Cart.tsx:79-99 | a line's buttons send -1, +1 and removal for that line's id |
| Cart.MinusAtOneRemoves | components/Cart.tsx:79-82 | on a line showing 1, minus does exactly what the bin does |
| Cart.PlusThenMinus | components/Cart.tsx:79-89 | plus then minus on a line of a valid cart gives the same cart back |
| Cart.AddThenMinus | App.tsx:157-166 | adding a new product and pressing minus once gives the same cart back |
| CheckoutWizard.ParsePersianPrice | components/CheckoutWizard.tsx:20-27 | the wizard's parser (with `\D`) computes `PriceValue`, agreeing with the cart page's on every string |
| CheckoutWizard.SubtotalAgrees | components/CheckoutWizard.tsx:28-29 | the wizard's subtotal equals the cart page's on every cart |
| CheckoutWizard.ShippingPrice | components/CheckoutWizard.tsx:31 | the fee is 0 exactly for pickup and never above 70000 |
| CheckoutWizard.AdvertisedJetPrice | components/CheckoutWizard.tsx:121 | the courier's printed price "۷۰,۰۰۰ تومان" is the fee charged |
| CheckoutWizard.AdvertisedPostPrice | components/CheckoutWizard.tsx:141 | the post's printed price "۴۵,۰۰۰ تومان" is the fee charged |
| CheckoutWizard.OrderTotal | components/CheckoutWizard.tsx:32 | the total is never below the subtotal, and equals it exactly for pickup |
| CheckoutWizard.PickupMatchesCartPage | components/CheckoutWizard.tsx:32 | the wizard charges what the cart page called payable only for pickup |
| CheckoutWizard.PickupShownAsPost | components/CheckoutWizard.tsx:209 | as written, the summary names the post for a pickup order, beside a shipping cost of 0 |
| CheckoutWizard.ShippingLabel | components/CheckoutWizard.tsx:209 | the corrected name keeps the source's names for courier and post |
| CheckoutWizard.ShippingLabelsDistinct | components/CheckoutWizard.tsx:209 | the corrected names tell the three methods apart |
| CheckoutWizard.Wizard.constructor | components/CheckoutWizard.tsx:15-18 | step 1, the first address preselected or "", courier and ZarinPal |
| CheckoutWizard.Wizard.SelectAddress | components/CheckoutWizard.tsx:73-76 | a card click selects that address's id |
| CheckoutWizard.Wizard.SelectShipping | components/CheckoutWizard.tsx:110 | an option click sets the shipping method (also lines 130 and 150) |
| CheckoutWizard.Wizard.SelectPayment | components/CheckoutWizard.tsx:179-186 | a gateway click sets the payment method |
| CheckoutWizard.Wizard.AddressAdded | App.tsx:190-200 | an address saved while checking out lands in the wizard's user by the same upsert |
| CheckoutWizard.Wizard.Next | components/CheckoutWizard.tsx:233-239 | disabled at step 1 with no address; below step 3 it advances one step; at step 3 it hands {address, shipping, payment, total} to `onComplete`; the step stays in 1..3 |
| CheckoutWizard.Wizard.Back | components/CheckoutWizard.tsx:222-231 | above step 1 it goes back one step; at step 1 it cancels |
| ProductCard.Targets | components/ProductCard.tsx:123-150 | the heart and the body are always there; "add" exactly at quantity 0; minus and plus exactly otherwise |
| ProductCard.Click | components/ProductCard.tsx:123-150 | the body opens quick view, the heart toggles this id, "add" adds this product, minus and plus send -1 and +1 for this id; a card never removes directly (also lines 43 and 58) |
| ProductCard.AddOfferedIffAbsent | components/ProductCard.tsx:123 | fed from a valid cart, a card offers "add" exactly when its product is not in the cart |
| ProductCard.AddShowsStepper | components/ProductCard.tsx:123-150 | after "add" the card shows the stepper at quantity 1 |
| ProductCard.MinusAtOneShowsAdd | components/ProductCard.tsx:137 | minus at 1 takes the product out and brings "add" back |
| ProductDetailModal.Images | components/ProductDetailModal.tsx:28 | the gallery when non-empty, else the catalogue image alone, so never empty |
| ProductDetailModal.NoGalleryNoStrip | components/ProductDetailModal.tsx:28 | without a gallery of two or more pictures there is no strip, and without any gallery the catalogue image is shown (also line 73) |
| ProductDetailModal.BinMeansRemove | components/ProductDetailModal.tsx:181-184 | the bin icon appears exactly when pressing the button takes the product out of the cart |
| ProductDetailModal.DetailTargets | components/ProductDetailModal.tsx:160-184 | close, heart and share are always shown; "add" exactly at quantity 0, plus and minus exactly otherwise |
| ProductDetailModal.DetailClick | components/ProductDetailModal.tsx:160-184 | close closes, the heart toggles this id, share does nothing, "add" adds this product, plus and minus send +1 and -1 for this id; the overlay never removes directly (also lines 53 and 145) |
| ProductDetailModal.ControlsMatchCard | components/ProductDetailModal.tsx:160-184 | the overlay's add/stepper switch and the requests its buttons send are the card's |
| ProductDetailModal.DetailAddShowsStepper | components/ProductDetailModal.tsx:160-166 | "add" is offered for a product outside a valid cart, and after it the stepper shows 1 |
| ProductDetailModal.DetailStepperMoves | components/ProductDetailModal.tsx:168-184 | for a product in a valid cart the stepper is shown, plus shows one more and minus one fewer |
| ProductDetailModal.DetailView.constructor | components/ProductDetailModal.tsx:27 | the first picture is active |
| ProductDetailModal.DetailView.SelectThumbnail | components/ProductDetailModal.tsx:75-78 | a thumbnail click activates a picture that exists |
| Profile.ToPersianDigits | components/Profile.tsx:22-24 | each ASCII digit d becomes the d-th Persian digit, everything else is kept, the length too |
| Profile.PersianKeepsValue | components/Profile.tsx:22-24 | converting to Persian digits does not change the parsed price |
| Profile.PersianDecimalRoundTrip | components/Profile.tsx:22-24 | the cart parser applied to the Persian form of n's decimal gives n |
| Profile.EnglishUndoesPersian | components/Profile.tsx:22-24 | on text without Persian digits, the parser's passes undo `toPersianDigits` |
| Profile.PersianUndoesEnglish | components/Profile.tsx:22-24 | on text without ASCII digits, `toPersianDigits` undoes the passes |
| Profile.StatusLabelsDistinct | components/Profile.tsx:80-89 | five distinct labels for the five statuses; "نامشخص" exactly for every other string |
| Profile.ColorRoundTrip | components/Profile.tsx:69-78 | a known status can be read back off its colour scheme |
| Profile.StatusColorsDistinct | components/Profile.tsx:69-78 | the five statuses get five different colour schemes |
| Profile.DefaultColorMeansUnknown | components/Profile.tsx:77 | the slate default goes to exactly the strings the switch does not know |
| Profile.Timeline | components/Profile.tsx:246-269 | four steps, the last flagged as last |
| Profile.TimelineIsPath | components/Profile.tsx:246-269 | at most one step is active, completed steps form a prefix, and the active step sits at the status's place after completed steps only |
| Profile.TimelineMonotone | components/Profile.tsx:246-269 | a status further along completes every step an earlier one does |
| Profile.TimelineEnds | components/Profile.tsx:248-267 | step 1 is always done and dated with the order; step 4 is never active and is done exactly when delivered |
| Profile.TimelineDates | components/Profile.tsx:253-265 | a step is dated exactly when it has been reached; a cancelled order shows the processing date without reaching it |
| Profile.ListCancel | components/Profile.tsx:525-531 | the list's cancel sends the order id exactly when the dialog is confirmed |
| Profile.EditedReview | components/Profile.tsx:58-67 | the submitted review differs from the draft only in its date, today's plus the edited mark |
| Profile.StarChoicesAreRatings | components/Profile.tsx:196-199 | the picker offers exactly the ratings 1..5 |
| Profile.TabBadges | components/Profile.tsx:410-418 | the two tab badges exist exactly when both list props are given |
| Profile.AsWiredTabsThrow | components/Profile.tsx:410-418 | with the props the storefront passes (App.tsx:397-407), rendering the tab strip throws |
| Profile.ListsGiveCounts | components/Profile.tsx:410-418 | given both lists, the strip renders and each badge reads back as its list's length |
| Profile.ProfileView.constructor | components/Profile.tsx:41-50 | the info tab, nothing open, the form preloaded from the user |
| Profile.ProfileView.SelectTab | components/Profile.tsx:399-414 | a tab button selects its tab |
| Profile.ProfileView.StartEditProfile | components/Profile.tsx:375 | the edit button opens the form with the fields it already holds |
| Profile.ProfileView.EditField | components/Profile.tsx:134 | an input changes its own field only |
| Profile.ProfileView.SubmitProfile | components/Profile.tsx:52-56 | with all four `required` inputs filled (lines 136, 146, 157, 167), the four fields go out verbatim and the form closes; with one empty, nothing is sent and the form stays as it was |
| Profile.ProfileView.OpenOrder | components/Profile.tsx:520 | the order modal shows the clicked order |
| Profile.ProfileView.CloseOrder | components/Profile.tsx:237 | closing the modal clears the shown order |
| Profile.ProfileView.CancelSelected | components/Profile.tsx:347-353 | once confirmed, the id goes out and the shown order becomes cancelled, is no longer cancellable and is labelled "لغو شده"; otherwise nothing changes |
| Profile.ProfileView.StartEditReview | components/Profile.tsx:568 | the editor opens on the clicked review |
| Profile.ProfileView.PickStar | components/Profile.tsx:196-199 | a star sets only the draft's rating, which stays in 1..5 |
| Profile.ProfileView.EditComment | components/Profile.tsx:211 | typing sets only the draft's comment |
| Profile.ProfileView.CloseReviewEditor | components/Profile.tsx:188 | closing discards the draft |
| Profile.ProfileView.SubmitReviewEdit | components/Profile.tsx:58-67 | with a non-empty comment (the `required` textarea of line 213), the edited review goes out with the new date and the editor closes; with an empty comment nothing is sent and the draft stays open; a sent review always has a comment |
| Profile.EditedKeepsComment | components/Profile.tsx:58-67 | re-dating a draft keeps its comment, so a draft that passed the `required` check is sent with a comment |
| AddressForm.SanitizePostal | components/AddressForm.tsx:196 | the code holds only ASCII digits, at most ten, and is the input's first ten ASCII digits in order |
| AddressForm.KeepAppend | components/AddressForm.tsx:196 | the digit filter distributes over concatenation |
| AddressForm.KeepDigitsOnly | components/AddressForm.tsx:196 | the digit filter leaves a digits-only string as it is |
| AddressForm.NoAsciiDigitsGivesEmpty | components/AddressForm.tsx:196 | text without ASCII digits, Persian digits included, gives an empty code |
| AddressForm.SanitizeIdempotent | components/AddressForm.tsx:196 | sanitising a sanitised code changes nothing |
| AddressForm.TypeOneCharacter | components/AddressForm.tsx:195-197 | one more typed character is appended if it is an ASCII digit and the code is shorter than ten, and dropped otherwise |
| AddressForm.SanitizedPassesIff | components/AddressForm.tsx:127 | a typed code passes `/^\d{10}$/` exactly when the input held at least ten ASCII digits (also line 196) |
| AddressForm.TrimStart | components/AddressForm.tsx:77 | trimming the front removes exactly a white-space prefix |
| AddressForm.TrimEnd | components/AddressForm.tsx:77 | trimming the back removes exactly a white-space suffix |
| AddressForm.BlankIffAllSpace | components/AddressForm.tsx:77 | a query is blank after `trim` exactly when every character of it is white space |
| AddressForm.SavedId | components/AddressForm.tsx:138 | the edited address's id is kept unless it is absent or empty; then the fresh id is used |
| AddressForm.Submit | components/AddressForm.tsx:118-146 | empty fields fail first; then a code that is not ten digits; then a missing location; only when all pass is the record {id, fields, province "تهران", location} saved |
| AddressForm.EditKeepsId | components/AddressForm.tsx:137-138 | editing an address with an id saves it under that id |
| AddressForm.TypedCodeRejectedIffShort | components/AddressForm.tsx:122-130 | with the other fields filled, a typed code is rejected exactly when it has fewer than ten digits (also line 196) |
| AddressForm.AlertsBehindConstraints | components/AddressForm.tsx:122-130 | the missing-field and postal-code alerts fire exactly on forms the browser's `required` and `pattern="\d{10}"` refuse, so through the form only the location check can stop a save (the constraints are at lines 175, 201-202 and 215) |
| AddressForm.AddressFormView.constructor | components/AddressForm.tsx:13-26 | fields start from the edited address (city defaulting to "تهران"), or empty with the map centre; the location counts as chosen exactly when editing |
| AddressForm.AddressFormView.SetTitle | components/AddressForm.tsx:172 | the title input sets the title only |
| AddressForm.AddressFormView.SetFullAddress | components/AddressForm.tsx:212 | the address input sets the full address only |
| AddressForm.AddressFormView.TypePostalCode | components/AddressForm.tsx:195-197 | the postal input stores the sanitised text |
| AddressForm.AddressFormView.OpenMap | components/AddressForm.tsx:224 | the map button opens the map without changing the location flag |
| AddressForm.AddressFormView.SetSearchQuery | components/AddressForm.tsx:269 | the search box sets the query only |
| AddressForm.AddressFormView.MoveMarker | components/AddressForm.tsx:62-70 | a drag or click moves the location without confirming it |
| AddressForm.AddressFormView.SearchLocation | components/AddressForm.tsx:75-111 | a blank query sends no request; otherwise a hit moves the location; the location flag never changes |
| AddressForm.AddressFormView.ConfirmLocation | components/AddressForm.tsx:113-116 | confirming marks the location chosen and closes the map |
| AddressForm.AddressFormView.HandleSubmit | components/AddressForm.tsx:118-146 | the handler's early returns give exactly `Submit` of the current fields, and the form is unchanged |
| AddressForm.AddressFormView.SubmitForm | components/AddressForm.tsx:166 | pressing save runs `handleSubmit` exactly when the title, the full address and a ten-digit code pass the browser's checks, and does nothing otherwise |
| Auth.AuthMode.Toggled | components/Auth.tsx:119 | the switch always changes the mode |
| Auth.ToggleTwice | components/Auth.tsx:119 | switching twice gives back the mode one started with |
| Auth.OrElse | components/Auth.tsx:27-29 | `text \|\| fallback` keeps non-empty text and replaces only the empty string |
| Auth.NewUser | components/Auth.tsx:25-32 | the record has the fresh id, the typed phone, an empty address book, and each name typed or, when empty, "کاربر", "گرامی" and "0000000000" |
| Auth.NewUserComplete | components/Auth.tsx:27-29 | the new record never has an empty name or national id, and typed values survive verbatim |
| Auth.AuthDialog.constructor | components/Auth.tsx:14-18 | login mode with every field empty |
| Auth.AuthDialog.ToggleMode | components/Auth.tsx:119 | the link switches the mode and keeps the typed fields |
| Auth.AuthDialog.SetPhone | components/Auth.tsx:57 | the phone input sets the phone only |
| Auth.AuthDialog.SetFirstName | components/Auth.tsx:74 | the first-name input sets the first name only |
| Auth.AuthDialog.SetLastName | components/Auth.tsx:84 | the last-name input sets the last name only |
| Auth.AuthDialog.SetNationalId | components/Auth.tsx:96 | the national-id input sets the national id only |
| Auth.AuthDialog.HandleAuth | components/Auth.tsx:22-35 | when the `required` inputs are filled, one `NewUser` record goes out in either mode and the dialog closes; otherwise the browser does not submit and nothing happens (also line 49) |
| Auth.SubmittedUser | components/Auth.tsx:22-32 | a submitted record always has a phone, and a signup record holds exactly the typed names and national id, so the placeholders apply only on login (the `required` inputs are at lines 60, 76, 86 and 99) |
| Auth.LoginUsesPlaceholders | components/Auth.tsx:25-32 | a login with only a phone typed gives "کاربر", "گرامی" and "0000000000" |
| Magazine.WithIds | components/Magazine.tsx:49 | the filter keeps exactly the catalogue entries whose id is listed, never more entries than the catalogue has |
| Magazine.WithIdsInOrder | components/Magazine.tsx:49 | the filter keeps the catalogue's order |
| Magazine.WithIdsUnique | components/Magazine.tsx:49 | from a catalogue with unique ids each product appears at most once, however often its id is listed |
| Magazine.RelatedProducts | components/Magazine.tsx:48-50 | empty when the post lists no ids; otherwise exactly the listed catalogue entries |
| Magazine.RelatedInOrder | components/Magazine.tsx:48-50 | the related products are in catalogue order, each at most once |
| Magazine.Paragraphs | components/Magazine.tsx:101 | one paragraph more than line breaks, none containing a line break, and joined with line breaks they restore the content |
| Magazine.CardQuantity | components/Magazine.tsx:126 | a related card's quantity is that of the first cart line with its id |
| Magazine.MagazineView.constructor | components/Magazine.tsx:32 | a deep-linked post opens straight away; otherwise the list shows |
| Magazine.MagazineView.Related | components/Magazine.tsx:46-50 | no related products in the list view, the open post's otherwise; they keep catalogue order, and with unique catalogue ids each product appears at most once |
| Magazine.MagazineView.OpenPost | components/Magazine.tsx:154 | a card click opens that post |
| Magazine.MagazineView.ClosePost | components/Magazine.tsx:41-44 | closing returns to the list |
| Magazine.MagazineView.SyncInitialPost | components/Magazine.tsx:35-39 | a new deep link opens its post; a cleared one changes nothing |

## Left out

- Rendering: JSX, styling classes, tab navigation, scrolling, the body-overflow effect and the progress-bar width. All of it is presentation.
- Browser storage: loading and saving the cart, favourites and user. The constructor takes whatever was stored, and the cart lemmas assume the cart invariants where they need them.
- The Leaflet map, marker dragging and the Nominatim geocoder in components/AddressForm.tsx. These are a foreign library and the network; a position arrives as an opaque `Location`, and the geocoder's reply is a parameter.
- The `isSearching` spinner flag and the alerts of the map search. They are display-only.
- The city input of the address form. It is read-only, so its change handler never fires.
- Random ids, today's date and `window.confirm`. They enter as parameters (`freshId`, `today`, `confirmed`).
- components/Consultation.tsx and components/Hero.tsx. Both are timer- and scroll-driven UI.
- components/Navbar.tsx, components/MobileNav.tsx, components/Footer.tsx and index.tsx. They hold presentation and DOM mounting only.
- Number formatting with `toLocaleString('fa-IR')`. The model keeps numbers as numbers.
- App.LowerAscii: folds A–Z only, not the full Unicode `toLowerCase`.
- Prices.ParseIntOrZero: reads only a leading run of ASCII digits. Every input it gets is already digits-only, so the whitespace and sign handling of `parseInt` never matter.
- Prices.PriceValue: prices are unbounded naturals, so the 2^53 precision limit of JavaScript numbers is not modelled.
- Prices.OldPrice: is exact nearest-integer rounding of 20p/17 rather than IEEE-754 division by 0.85.
- Magazine's `onClearInitialPost` callback. The parent in App.tsx never renders the magazine, so no callback is attached.
- Profile is modelled as a component on its own props, as components/Profile.tsx declares them. App.tsx (lines 396-407) passes none of `orders`, `userReviews`, `products`, `onUpdateReview`, `onDeleteReview`, `onCancelOrder` and `onOpenProduct`. As wired, the page throws while rendering (see Findings). So the cancel and review-edit handlers are modelled for a parent that supplies those callbacks.
- The delete-review and product-opening callbacks of Profile. They only forward an id or a product to the parent, which supplies neither.
- Browser constraint validation is modelled only as the `required` and `pattern` checks of the storefront's four forms: sign-in (`Auth.Submittable`), the address form (`AddressForm.ConstraintsMet`), the profile form (`Profile.ProfileFilled`, components/Profile.tsx:136-167) and the review editor (`Profile.CommentFilled`, line 213). A `required` input counts as filled when its value is non-empty; validation messages and focus are not modelled.
- The review counts and the fixed four-star rows on cards. These are constants in the markup.
- The order record placed at checkout. App.tsx only empties the cart; no order is stored.

## Findings

| source | as written | input that shows it | evidently intended | confidence | as-written member | corrected member |
|---|---|---|---|---|---|---|
| components/Profile.tsx:410 | the tab strip renders `toPersianDigits(orders.length)` and `toPersianDigits(userReviews.length)` (line 418) on every render, but App.tsx:397-407 passes neither `orders` nor `userReviews` | sign in and open the profile tab: reading `length` of the undefined `orders` throws a TypeError and the page does not render | the storefront passes its orders and reviews lists, empty ones when it keeps none, so the badges show the counts | not executed | Profile.AsWiredTabsThrow | Profile.ListsGiveCounts |
| components/CheckoutWizard.tsx:209 | the step 3 summary names the shipping method with `shipping === JET ? 'جت' : 'پست'` | choose in-person pickup: the summary reads "هزینه ارسال (پست)" next to a cost of 0 | pickup has its own name, so the three methods read differently | not executed | CheckoutWizard.PickupShownAsPost | CheckoutWizard.ShippingLabelsDistinct |
