# Qurbani Connect, modelled in Dafny

Qurbani Connect is a web front end for booking shares of sacrificial animals
(cows of seven shares, goats of one) for Eid al-Adha. Visitors browse and
filter the animal catalogue. They choose a number of shares on an animal's
page, collect them in a cart that persists in browser storage, and submit an
order. Administrators manage animals and bookings behind a gate that admits
only user "1". Every service call falls back to built-in demonstration data
when the backend cannot be reached.

This project models the core of that front end:

- the cart context, with its add, remove, update and total operations;
- the pages built on the cart: animal detail, cart and order;
- the animal, booking, user, calendar and configuration services;
- the listing, calendar, home countdown, profile and registration pages;
- the administrator pages for bookings and animals, and the administrator gate.

Each source file is one Dafny module:

- `common.dfy` holds the shared pieces:
  - `Option` and `Remote` (a backend call that succeeds with a value or fails);
  - a list filter with its laws;
  - the JavaScript `slice`, lower-casing, `includes`, `split` and number conversions.
- Code that computes values is written as functions and lemmas.
- Components and services whose state changes are classes, with `modifies`
  clauses.
- Browser storage, the clock, the backend and the schema library's e-mail and
  URL checks become parameters.
- The detail page class follows the code as written, which lets the cart
  hold more shares than remain (see "## Findings"). The corrected share
  bound and add button are the functions `TypedShareCount` and `AddEnabled`,
  with `CorrectedAddNeverOverbooks` proving they never overbook.

## Model

| member | source | states |
|---|---|---|
| CartContext.LineIdInjective | src/contexts/CartContext.tsx:64-67 | a new line's id `animalId-timestamp` determines both the animal and the timestamp |
| CartContext.TrailingDigitsOfLineId | src/contexts/CartContext.tsx:65 | the id ends in a dash followed by exactly the timestamp's digits |
| CartContext.LineId | src/contexts/CartContext.tsx:65 | a new line's id starts with the animal id and a dash, and only digits follow |
| CartContext.Merge | src/contexts/CartContext.tsx:56-60 | a merged line keeps its id, animal, name, category, image and share price, gains the input's shares and total, and stays consistently priced when the input is priced at the line's share price |
| CartContext.NewLine | src/contexts/CartContext.tsx:64-67 | a new line carries the generated id and every field of the input |
| CartContext.AddItem | src/contexts/CartContext.tsx:47-70 | an add grows the cart by one line, for the animal, exactly when no line holds that animal, and never touches the lines of other animals |
| CartContext.RemoveItem | src/contexts/CartContext.tsx:72-74 | removal leaves only lines of the cart whose id differs, and is strictly shorter whenever some line has the id |
| Common.Filter | src/contexts/CartContext.tsx:73 | JavaScript `filter`: never longer than the list, and holding exactly the elements of the list that pass the test |
| CartContext.UpdateShares | src/contexts/CartContext.tsx:80-93 | an update keeps the number of lines and each line's id, animal and share price |
| CartContext.TotalPrice | src/contexts/CartContext.tsx:95-97 | 0 for the empty cart and never negative when no line's total is |
| CartContext.TotalItems | src/contexts/CartContext.tsx:99-101 | 0 for the empty cart, and at least the number of lines when each line holds a share |
| CartContext.FindIndex | src/contexts/CartContext.tsx:49-51 | the index of the first line for the animal, or -1 exactly when no line holds it |
| CartContext.AddMergesExisting | src/contexts/CartContext.tsx:53-61 | adding an animal already in the cart, in any cart, adds shares and price to the first line for it and leaves every other line as it was |
| CartContext.AddAppendsNew | src/contexts/CartContext.tsx:62-69 | adding an animal not in the cart appends one new line carrying the input and the fresh id |
| CartContext.AddKeepsUniqueAnimals | src/contexts/CartContext.tsx:47-70 | after an add there is still at most one line per animal |
| CartContext.AddKeepsPricesConsistent | src/contexts/CartContext.tsx:47-70 | when each line's price is share price times shares, and the input is priced the same way at the line's share price, this stays true after an add |
| CartContext.AddWithOtherPriceBreaksConsistency | src/contexts/CartContext.tsx:56-60 | a merge at a different share price leaves the line's total off its share price times shares |
| CartContext.AddKeepsSharesPositive | src/contexts/CartContext.tsx:47-70 | adding at least one share keeps every line at one share or more |
| CartContext.AddRaisesTotals | src/contexts/CartContext.tsx:95-101 | after an add, the cart total grows by the input's price and the share count by its shares |
| CartContext.AddTwiceMerges | src/contexts/CartContext.tsx:47-70 | two adds of a new animal make a single line holding the sum of both inputs |
| CartContext.TotalsAppend | src/contexts/CartContext.tsx:95-101 | the totals of a cart with one more line grow by that line's price and shares |
| CartContext.TotalsAfterReplace | src/contexts/CartContext.tsx:95-101 | replacing a line changes the totals by the difference between the new line and the old |
| CartContext.RemoveDropsExactlyMatching | src/contexts/CartContext.tsx:72-74 | removal keeps exactly the lines whose id differs |
| CartContext.RemoveKeepsOrder | src/contexts/CartContext.tsx:72-74 | removal splits over a joined cart, and keeps a single line exactly when its id differs, so the lines left keep their order and repetitions |
| CartContext.RemoveUnknownIsNoop | src/contexts/CartContext.tsx:72-74 | removing an id the cart does not hold changes nothing |
| CartContext.RemoveIdempotent | src/contexts/CartContext.tsx:72-74 | removing the same id twice is the same as removing it once |
| CartContext.RemoveKeepsInvariants | src/contexts/CartContext.tsx:72-74 | removal keeps one line per animal, consistent prices and positive shares |
| CartContext.UpdateSetsAndRecomputes | src/contexts/CartContext.tsx:80-93 | lines with the id take the new shares and share price times shares as their price; other lines are unchanged |
| CartContext.UpdateUnknownIsNoop | src/contexts/CartContext.tsx:80-93 | updating an id the cart does not hold changes nothing |
| CartContext.UpdateKeepsInvariants | src/contexts/CartContext.tsx:80-93 | updates keep one line per animal and consistent prices, and keep shares positive when the new count is positive |
| CartContext.UpdateRepairsDrift | src/contexts/CartContext.tsx:86-87 | an updated line's price is recomputed from its share price, whatever it was before |
| CartContext.Load | src/contexts/CartContext.tsx:31-40 | the stored cart when it parses, otherwise the empty cart |
| CartContext.CartStore.Mount | src/contexts/CartContext.tsx:28-45 | the cart starts as the stored cart and the storage slot mirrors it |
| CartContext.CartStore.AddToCart | src/contexts/CartContext.tsx:47-70 | the new cart is the add of the input; storage mirrors it; totals grow by the input |
| CartContext.CartStore.RemoveFromCart | src/contexts/CartContext.tsx:72-74 | the new cart is the removal; storage mirrors it; the invariants are kept |
| CartContext.CartStore.ClearCart | src/contexts/CartContext.tsx:76-78 | the cart and its totals are empty; storage mirrors it |
| CartContext.CartStore.UpdateShareCount | src/contexts/CartContext.tsx:80-93 | the new cart is the update; storage mirrors it; the invariants are kept |
| CartContext.Scenario | src/contexts/CartContext.tsx:47-101 | a fixed run of add, add again, update and remove gives the expected totals after each step |
| AnimalService.MockAnimalsAccounted | src/services/animalService.ts:24-158 | every demonstration animal's booked and remaining shares add up to its total, with at least one share left |
| AnimalService.MockAnimalIdsDistinct | src/services/animalService.ts:24-158 | the demonstration animals have distinct ids |
| AnimalService.FindById | src/services/animalService.ts:206 | the first animal with the id, and none exactly when no animal has it |
| AnimalService.GetAllAnimals | src/services/animalService.ts:178-186 | the backend's list, or the demonstration animals when the call fails |
| AnimalService.CategoryPath | src/services/animalService.ts:191 | the request path is `/?category=` followed by the category |
| AnimalService.GetAnimalsByCategory | src/services/animalService.ts:189-197 | the backend's list, or on failure the demonstration animals of that category in order |
| AnimalService.CategoryFallbackExact | src/services/animalService.ts:195 | an animal is in the fallback exactly when it is a demonstration animal of that category |
| AnimalService.GetAnimalById | src/services/animalService.ts:200-208 | the backend's answer, or on failure the demonstration animal with that id |
| AnimalService.BookShares | src/services/animalService.ts:211-220 | booking reports success whether or not the request succeeds |
| AnimalDetail.SharesInCartSingle | src/pages/AnimalDetail.tsx:104-106 | with one line per animal, the shares of an animal in the cart are its line's shares |
| AnimalDetail.SharesInCartNone | src/pages/AnimalDetail.tsx:104-106 | an animal with no line has no shares in the cart |
| AnimalDetail.SharesInCart | src/pages/AnimalDetail.tsx:104-106 | the shares of the animal in the cart are never negative and never more than the cart's share count, when no line is negative |
| AnimalDetail.SharesInCartCons | src/pages/AnimalDetail.tsx:104-106 | the shares of an animal in a cart are the first line's contribution plus those in the rest |
| AnimalDetail.FilteredSharesBounded | src/pages/AnimalDetail.tsx:104-106 | the shares of any filtered part of a cart lie between 0 and the cart's share count, when no line is negative |
| AnimalDetail.AddRaisesSharesInCart | src/pages/AnimalDetail.tsx:104-108 | adding to the cart raises an animal's shares in the cart by the input's shares when the input is for that animal, and by nothing otherwise |
| AnimalDetail.AvailableShares | src/pages/AnimalDetail.tsx:108 | the available shares never exceed the animal's remaining shares and never fall below the remaining shares less the cart's share count |
| AnimalDetail.AddPayload | src/pages/AnimalDetail.tsx:84-92 | the item sent to the cart carries the animal's id, name, category, image and share price, the chosen shares and their price |
| AnimalDetail.PayloadKeepsPricesConsistent | src/pages/AnimalDetail.tsx:71-92 | adding the page's item keeps cart prices consistent |
| AnimalDetail.TypedShareCountAsWritten | src/pages/AnimalDetail.tsx:73-78 | a typed count is taken only when it lies between 1 and the animal's remaining shares |
| AnimalDetail.AddEnabledAsWritten | src/pages/AnimalDetail.tsx:296 | the add button as written is disabled only at 0 available, so it stays enabled when the cart is already over |
| AnimalDetail.OverbookingAsWritten | src/pages/AnimalDetail.tsx:73-78 | with 4 shares remaining and 3 in the cart, typing 4 is accepted, adding stays enabled, and the cart ends with 7 shares |
| AnimalDetail.PageOverbooks | src/pages/AnimalDetail.tsx:73-101 | on the page as written, choosing 3 of the cow's 4 remaining shares and adding twice leaves 6 shares in the cart |
| AnimalDetail.TypedBoundAloneOverbooks | src/pages/AnimalDetail.tsx:80-101 | with the typed count bounded by the available shares but the button as written, a second add of a count that is not reset still leaves 6 of 4 shares in the cart, and the corrected button refuses it |
| AnimalDetail.TypedShareCount | src/pages/AnimalDetail.tsx:73-78 | corrected: a typed count is taken only when it lies between 1 and the available shares, so an in-range count stays in range |
| AnimalDetail.AddEnabled | src/pages/AnimalDetail.tsx:294-296 | corrected: the add button enabled only for a count between 1 and the available shares, which implies the button as written is enabled |
| AnimalDetail.CorrectedAddNeverOverbooks | src/pages/AnimalDetail.tsx:294-296 | with the corrected guard, adding never takes the cart past the remaining shares, and the available shares fall by the count added |
| AnimalDetail.Decremented | src/pages/AnimalDetail.tsx:236-237 | the minus button lowers the count by one but never below 1 |
| AnimalDetail.Incremented | src/pages/AnimalDetail.tsx:254-255 | the plus button raises the count by one but never beyond the available shares |
| AnimalDetail.Capitalize | src/pages/AnimalDetail.tsx:111-114 | empty for a missing string; otherwise the same length, with the first character upper-cased and the rest unchanged |
| AnimalDetail.DetailPage.constructor | src/pages/AnimalDetail.tsx:19-23 | loading, with no animal and one share chosen |
| AnimalDetail.DetailPage.Fetch | src/pages/AnimalDetail.tsx:26-49 | without an id nothing changes; otherwise a found animal is shown and loading ends |
| AnimalDetail.DetailPage.ChangeShareCount | src/pages/AnimalDetail.tsx:73-78 | the count becomes the typed count as written, bounded by the animal's remaining shares whatever the cart holds |
| AnimalDetail.DetailPage.Decrement | src/pages/AnimalDetail.tsx:236 | the count becomes the decremented count |
| AnimalDetail.DetailPage.Increment | src/pages/AnimalDetail.tsx:254 | the count becomes the incremented count against the available shares |
| AnimalDetail.DetailPage.AddToCart | src/pages/AnimalDetail.tsx:80-101 | while the button as written is enabled, the cart gains the page's item and the animal's shares in the cart rise by the chosen count |
| CartPage.FormatCategory | src/pages/Cart.tsx:26-29 | "Unknown" for a missing or empty category; otherwise the category with its first letter upper-cased |
| CartPage.FormatCategoryExtendsCapitalize | src/pages/Cart.tsx:26-29 | the cart's formatting is the detail page's capitalising, with "Unknown" in place of the empty string |
| CartPage.ViewOf | src/pages/Cart.tsx:31-46 | the empty-cart view is shown exactly when the cart has no lines |
| CartPage.ControlUpdate | src/pages/Cart.tsx:86-124 | the share controls keep every line in place, and remove makes the cart strictly shorter |
| CartPage.ControlsKeepSharesPositive | src/pages/Cart.tsx:86-112 | the minus, typed, plus and remove controls keep every line at one share or more |
| CartPage.ControlsKeepInvariants | src/pages/Cart.tsx:86-124 | every control keeps one line per animal and consistent prices |
| CartPage.ControlsTouchOnlyTheirLine | src/pages/Cart.tsx:86-124 | a share control changes only its own line, in place; remove drops exactly the lines with its id and keeps the others in order, splitting over any cut of the cart |
| CartPage.PlusIsUnbounded | src/pages/Cart.tsx:112 | the cart's plus button adds a share with no upper bound |
| CartPage.CartPageState.constructor | src/pages/Cart.tsx:14 | not checking out, and no navigation yet |
| CartPage.CartPageState.Handle | src/pages/Cart.tsx:86-124 | the cart becomes the control's update and storage mirrors it |
| CartPage.CartPageState.Checkout | src/pages/Cart.tsx:16-23 | checkout ends on the order page |
| Order.SetField | src/pages/Order.tsx:58-64 | a change sets the named field and leaves the other fields alone |
| Order.GetField | src/pages/Order.tsx:58-64 | the form field a change event names, a definition used to state RequiredIgnoresNotes |
| Order.RequiredFilled | src/pages/Order.tsx:69 | the submit guard, a definition; RequiredIgnoresNotes states that it reads only the four required fields |
| Order.RequiredIgnoresNotes | src/pages/Order.tsx:69 | the form is complete exactly when name, e-mail, phone and address are non-empty, whatever the notes say |
| Order.ToOrderItem | src/pages/Order.tsx:90-95 | an order item carries the line's animal, name, shares and total, priced at the share price per share for a consistent line |
| Order.BuildOrder | src/pages/Order.tsx:82-98 | the order carries the customer, the notes, one item per cart line with its animal, shares and price, the cart total and the date |
| Order.OrderTotalsMatchItems | src/pages/Order.tsx:90-96 | the order's total is the sum of its item prices, and its item shares sum to the cart's share count |
| Order.OrderPage.constructor | src/pages/Order.tsx:17-30 | an empty form, not submitting |
| Order.OrderPage.Prefill | src/pages/Order.tsx:33-49 | a signed-in visitor's name, e-mail and phone fill the form, with missing values as ""; the address and notes are kept |
| Order.OrderPage.RedirectIfEmpty | src/pages/Order.tsx:52-56 | an empty cart sends the visitor to /cart |
| Order.OrderPage.HandleChange | src/pages/Order.tsx:58-64 | the form becomes the field update |
| Order.OrderPage.Submit | src/pages/Order.tsx:66-126 | an incomplete form only warns; a complete one builds the order, empties the cart and goes to /dashboard whether or not the post succeeds |
| UserService.LoginResult | src/services/userService.ts:79-97 | the backend's user and token, or the demonstration user and the mock token |
| UserService.RegisterResult | src/services/userService.ts:101-119 | the backend's answer, or the demonstration user renamed to the submitted name and e-mail, with the mock token |
| UserService.BookingsResult | src/services/userService.ts:164-171 | the backend's bookings, or exactly the demonstration user's booked shares (its two bookings) |
| UserService.FallbackTokenAuthenticates | src/services/userService.ts:93-117 | the fallback token counts as signed in |
| UserService.UserSession.constructor | src/services/userService.ts:63-68 | the stored token, not authenticated, no cached user |
| UserService.UserSession.Login | src/services/userService.ts:79-98 | the login result's token is stored and its user cached and returned |
| UserService.UserSession.Register | src/services/userService.ts:101-120 | the registration result's token is stored and its user cached and returned |
| UserService.UserSession.Logout | src/services/userService.ts:123-127 | no token, not authenticated, no cached user |
| UserService.HasToken | src/services/userService.ts:132 | a stored token that is non-empty, a definition; CheckAuth and FallbackTokenAuthenticates state its use |
| UserService.UserSession.CheckAuth | src/services/userService.ts:130-134 | authenticated exactly when a non-empty token is stored |
| UserService.UserSession.GetCurrentUser | src/services/userService.ts:137-156 | none without a token; the cached user when there is one; otherwise the backend's user or the demonstration user, now cached |
| UserService.UserSession.GetUserBookings | src/services/userService.ts:159-172 | nothing without a token; otherwise the bookings result |
| UserService.SessionScenario | src/services/userService.ts:79-156 | after a failed login the session is signed in with the demonstration user; after logout it is signed out with no user |
| BookingService.StatusSelects | src/services/bookingService.ts:149 | when a status filters, a definition: given, non-empty and not "all"; FilterByStatus and BookingsPath state its effect |
| BookingService.FilterByStatus | src/services/bookingService.ts:147-151 | without a selecting status the list is kept; otherwise exactly the bookings of that status |
| BookingService.FilterByStatusOrder | src/services/bookingService.ts:148-151 | the status filter keeps the list's order |
| BookingService.FilterByStatusIdempotent | src/services/bookingService.ts:148-151 | filtering twice by a status is filtering once |
| BookingService.CeilDiv | src/services/bookingService.ts:155 | the least page count whose pages cover the items, and 0 exactly for no items |
| BookingService.PageOf | src/services/bookingService.ts:156-158 | a page never holds more than the page size |
| BookingService.PageIsWindow | src/services/bookingService.ts:156-158 | a page numbered from 1 is the window of the list from (page-1)*size, clipped to the list |
| BookingService.PagesBeyondLastAreEmpty | src/services/bookingService.ts:155-158 | page 0 and every page past the page count are empty |
| BookingService.NegativePageCountsFromEnd | src/services/bookingService.ts:156-158 | page -1 of size 3 takes the slice from the end: the second to fourth bookings |
| BookingService.PagesUpToIsPrefix | src/services/bookingService.ts:156-158 | the first k pages together are the list's first k*size bookings |
| BookingService.AllPagesCoverList | src/services/bookingService.ts:154-158 | the pages up to the page count together are the whole list |
| BookingService.BookingsPath | src/services/bookingService.ts:132-135 | the path is `/?page=`, the page, `&pageSize=` and the size, followed by `&status=` and the status exactly when a selecting status was given |
| BookingService.BaseLacksStatus | src/services/bookingService.ts:132 | the base path with numeric page and size never contains `&status=` |
| Common.JsSlice | src/services/bookingService.ts:156-158 | `slice` gives the window between two in-range indices, nothing when a non-negative end is not after the start, and never more than the list |
| BookingService.BookingsFallback | src/services/bookingService.ts:147-164 | the fallback counts the filtered bookings, rounds the page count up and returns the requested page |
| BookingService.GetBookings | src/services/bookingService.ts:126-166 | the backend's page, or the fallback with page 1 and size 10 by default |
| BookingService.FallbackDefaultsExample | src/services/bookingService.ts:126 | by default the fallback returns all seven bookings on one page |
| BookingService.FallbackSecondPageExample | src/services/bookingService.ts:147-164 | page 2 of size 5 under "all" holds the sixth and seventh bookings of 7, on 2 pages |
| BookingService.PendingExample | src/services/bookingService.ts:149-151 | the pending bookings are the second, fourth and seventh |
| BookingService.UpdateBookingStatus | src/services/bookingService.ts:169-178 | a status update reports success whether or not the request succeeds |
| BookingService.FindBookingById | src/services/bookingService.ts:187 | the first booking with the id, and none exactly when no booking has it |
| BookingService.GetBookingById | src/services/bookingService.ts:181-189 | the backend's answer, or on failure the demonstration booking with that id |
| BookingManagement.FetchBookings | src/pages/admin/BookingManagement.tsx:124-150 | the page count covers the filtered bookings and a page holds at most the page size |
| BookingManagement.FetchAgreesWithService | src/pages/admin/BookingManagement.tsx:124-150 | the page's own fetch gives exactly the booking service's fallback |
| BookingManagement.LastPage | src/pages/admin/BookingManagement.tsx:287-302 | the reported page count, or 1 when there is none or it is 0 |
| BookingManagement.BadgeColor | src/pages/admin/BookingManagement.tsx:184-192 | one colour per known status; grey exactly for any other status |
| BookingManagement.FixtureStatusesHaveColours | src/pages/admin/BookingManagement.tsx:184-192 | no demonstration booking gets the grey badge |
| BookingManagement.StatusLabel | src/pages/admin/BookingManagement.tsx:260 | the status with its first letter upper-cased |
| BookingManagement.StatusLabels | src/pages/admin/BookingManagement.tsx:260 | the four statuses read "Pending", "Confirmed", "Completed" and "Cancelled" |
| BookingManagement.BookingPager.constructor | src/pages/admin/BookingManagement.tsx:159-161 | page 1, filter "all", nothing loaded |
| BookingManagement.BookingPager.Load | src/pages/admin/BookingManagement.tsx:163-166 | the data is the fetch of the current page and filter |
| BookingManagement.BookingPager.Previous | src/pages/admin/BookingManagement.tsx:293 | one page back, never below 1 |
| BookingManagement.BookingPager.Next | src/pages/admin/BookingManagement.tsx:301 | one page on, never past the last page |
| BookingManagement.BookingPager.SetStatusFilter | src/pages/admin/BookingManagement.tsx:160 | the filter changes and the page number stays |
| BookingManagement.BookingPager.ChangeStatus | src/pages/admin/BookingManagement.tsx:168-182 | a status change reports success and refetches the current page |
| BookingManagement.FilterChangeCanStrandPage | src/pages/admin/BookingManagement.tsx:159-166 | on page 2 of "all", switching to "pending" keeps page 2 while the pending list has one page, so the table is empty |
| AnimalListing.PriceBoundsOfOption | src/pages/AnimalListing.tsx:110 | a range `lo-hi` of decimal numbers reads back as the bounds lo and hi |
| AnimalListing.PriceBounds | src/pages/AnimalListing.tsx:110 | a range with no dash reads as its number and no upper bound |
| Common.JsNumber | src/pages/AnimalListing.tsx:110 | `Number` of a text gives a number exactly when every character is a decimal digit |
| AnimalListing.InCategory | src/pages/AnimalListing.tsx:104-106 | the category test, a definition: "all" or the animal's own category; ListingMembers and FilterOrderIrrelevant state its effect on the list |
| AnimalListing.InPriceRange | src/pages/AnimalListing.tsx:109-111 | the price test, a definition: no range, or both bounds numbers with the price between them; RangeWithoutUpperBoundExcludesAll states its consequence for a dash-less range |
| AnimalListing.RangeWithoutUpperBoundExcludesAll | src/pages/AnimalListing.tsx:109-111 | a range with no dash has no upper bound, so it excludes every animal |
| AnimalListing.MatchesQuery | src/pages/AnimalListing.tsx:115-122 | the search test, a definition: no query, or the lower-cased query inside the lower-cased name, breed or category; SearchIgnoresQueryCase states its case independence |
| AnimalListing.SearchIgnoresQueryCase | src/pages/AnimalListing.tsx:115-122 | a query and its lower-cased form match the same animals |
| AnimalListing.CategoryStep | src/pages/AnimalListing.tsx:104-106 | the category step keeps animals of the category, or keeps everything under "all" |
| AnimalListing.PriceStep | src/pages/AnimalListing.tsx:109-112 | the price step keeps animals within the parsed bounds, or keeps everything without a range |
| AnimalListing.SearchStep | src/pages/AnimalListing.tsx:115-123 | the search step keeps animals whose name, breed or category includes the lower-cased query, or keeps everything without a query |
| AnimalListing.Passes | src/pages/AnimalListing.tsx:100-126 | the three tests together, a definition; ListingMembers states that the listing holds exactly the animals that pass |
| AnimalListing.ListingMembers | src/pages/AnimalListing.tsx:100-126 | an animal is listed exactly when it is in the fixture and passes the category, price and search tests |
| AnimalListing.Listing | src/pages/AnimalListing.tsx:100-126 | the listing never holds more animals than the fixture |
| AnimalListing.NoFiltersListEverything | src/pages/AnimalListing.tsx:94-101 | with the initial filters every animal is listed, in order |
| AnimalListing.FilterOrderIrrelevant | src/pages/AnimalListing.tsx:100-126 | applying the three filters in another order gives the same list |
| AnimalListing.ShareBadge | src/pages/AnimalListing.tsx:260 | cows read "7 Shares" and every other category "Full Animal" |
| AnimalListing.Narrow | src/pages/AnimalListing.tsx:100-126 | the three filter steps give the list filtered by all three tests at once |
| AnimalListing.ListingPage.constructor | src/pages/AnimalListing.tsx:94-97 | no filters, and every animal shown |
| AnimalListing.ListingPage.Refilter | src/pages/AnimalListing.tsx:100-126 | the shown list becomes the listing for the current filters |
| AnimalListing.ListingPage.SetCategory | src/pages/AnimalListing.tsx:161 | the category changes and the shown list follows |
| AnimalListing.ListingPage.SetPriceRange | src/pages/AnimalListing.tsx:182 | the price range changes and the shown list follows |
| AnimalListing.ListingPage.SetSearchQuery | src/pages/AnimalListing.tsx:150 | the query changes and the shown list follows |
| AddBooking.FormErrors | src/pages/admin/AddBooking.tsx:28-40 | each message appears exactly when its rule is broken: a short name, an invalid e-mail, fewer than one share |
| AddBooking.ValidIffNoErrors | src/pages/admin/AddBooking.tsx:28-40 | the form is accepted exactly when there are no messages |
| AddBooking.DefaultFormNeedsName | src/pages/admin/AddBooking.tsx:53-60 | the default form is rejected for its name, not for its shares |
| AddBooking.TotalAmount | src/pages/admin/AddBooking.tsx:115 | share price times shares, or the whole price when the share price is 0 |
| AddBooking.UnitPrice | src/pages/admin/AddBooking.tsx:268 | the share price when it is not 0, and the whole price when it is |
| AddBooking.SummaryShares | src/pages/admin/AddBooking.tsx:271 | the watched shares, or 1 when they are missing or 0 |
| AddBooking.SummaryTotal | src/pages/admin/AddBooking.tsx:271 | the summary's total is the unit price times the summary's shares |
| AddBooking.SummaryMatchesBookingWithSharePrice | src/pages/admin/AddBooking.tsx:268-271 | with a share price, the summary shows the amount the booking stores |
| AddBooking.SummaryDiffersWithoutSharePrice | src/pages/admin/AddBooking.tsx:268-271 | without a share price, the summary and the stored amount agree exactly for one share |
| AddBooking.CatalogueAmountsAgree | src/pages/admin/AddBooking.tsx:268-271 | for every catalogue animal the summary and the stored amount agree |
| AddBooking.Draft | src/pages/admin/AddBooking.tsx:108-119 | the booking carries the user, the form's animal, shares and notes, the animal's name, the total amount, "confirmed" and the date |
| AddBooking.AddBookingPage.constructor | src/pages/admin/AddBooking.tsx:46-48 | no animals, loading, none selected |
| AddBooking.AddBookingPage.LoadAnimals | src/pages/admin/AddBooking.tsx:64-78 | the animals are the service's list, the six demonstration animals on failure, and loading ends |
| AddBooking.AddBookingPage.HandleAnimalChange | src/pages/admin/AddBooking.tsx:81-84 | the selected animal is the one with the id, or none exactly when no animal has it |
| AddBooking.AddBookingPage.Submit | src/pages/admin/AddBooking.tsx:86-132 | an invalid form does nothing; otherwise the user is registered, and an unknown animal fails, while a known one builds the booking, reports success and goes to /admin/bookings |
| AnimalManagement.FormErrors | src/pages/admin/AnimalManagement.tsx:25-36 | a complaint appears exactly when its rule is broken |
| AnimalManagement.FirstViolated | src/pages/admin/AnimalManagement.tsx:25-36 | a rejected form breaks at least one rule |
| AnimalManagement.ValidIffNoErrors | src/pages/admin/AnimalManagement.tsx:25-36 | the form is accepted exactly when there are no complaints, and the age never matters |
| AnimalManagement.DefaultFormRejected | src/pages/admin/AnimalManagement.tsx:58-69 | the defaults are rejected for name, breed, weight, prices and description, not for category or shares |
| AnimalManagement.EditForm | src/pages/admin/AnimalManagement.tsx:157-170 | editing fills the form with the animal's fields, a missing age as "" |
| AnimalManagement.CatalogueEditsAreValid | src/pages/admin/AnimalManagement.tsx:157-170 | every catalogue animal, loaded for editing, passes the schema |
| AnimalManagement.FinalImageUrl | src/pages/admin/AnimalManagement.tsx:127-139 | the preview URL is used only on the upload tab with a file and a non-empty preview; otherwise the form's URL |
| AnimalManagement.TotalPages | src/pages/admin/AnimalManagement.tsx:212 | the reported page count, or 1 when there is none or it is 0 |
| AnimalManagement.AnimalManagerPage.constructor | src/pages/admin/AnimalManagement.tsx:42-69 | page 1, dialog closed, the form at its defaults |
| AnimalManagement.AnimalManagerPage.Loaded | src/pages/admin/AnimalManagement.tsx:51-54 | the page count reported by the query is recorded |
| AnimalManagement.AnimalManagerPage.ResetForm | src/pages/admin/AnimalManagement.tsx:186-203 | the form, the animal being edited and the image state return to their defaults |
| AnimalManagement.AnimalManagerPage.DialogOpenChange | src/pages/admin/AnimalManagement.tsx:205-210 | closing the dialog also resets the form; opening it changes nothing else |
| AnimalManagement.AnimalManagerPage.EditAnimal | src/pages/admin/AnimalManagement.tsx:157-178 | the animal is being edited, the form holds its fields, the preview is its image, and the dialog opens on the URL tab |
| AnimalManagement.AnimalManagerPage.Fill | src/pages/admin/AnimalManagement.tsx:56-70 | the form holds the typed values |
| AnimalManagement.AnimalManagerPage.SelectTab | src/pages/admin/AnimalManagement.tsx:332 | the image tab changes |
| AnimalManagement.AnimalManagerPage.ImageChosen | src/pages/admin/AnimalManagement.tsx:110-125 | a chosen file sets the preview, and on the upload tab the form's URL becomes the placeholder |
| AnimalManagement.AnimalManagerPage.Submit | src/pages/admin/AnimalManagement.tsx:127-155 | a rejected form dispatches nothing; an accepted one dispatches an update of the animal being edited, or else an add, with the final image URL |
| AnimalManagement.AnimalManagerPage.Settled | src/pages/admin/AnimalManagement.tsx:72-97 | success closes and resets the dialog with the matching message; failure only reports it |
| AnimalManagement.AnimalManagerPage.Previous | src/pages/admin/AnimalManagement.tsx:475 | one page back, never below 1 |
| AnimalManagement.AnimalManagerPage.Next | src/pages/admin/AnimalManagement.tsx:483 | one page on, never past the page count |
| AnimalManagement.EditThenCloseAdds | src/pages/admin/AnimalManagement.tsx:146-150 | an edit abandoned by closing the dialog is forgotten, so the next accepted form is added, not updated |
| Home.Decompose | src/pages/Home.tsx:30-33 | hours, minutes and seconds are within range, and the reading is the time left rounded down to the second |
| Home.DecomposeRecovers | src/pages/Home.tsx:30-33 | any instant within the second a reading stands for splits back into that reading |
| Home.Countdown.constructor | src/pages/Home.tsx:9-21 | the reading starts at zero and the timer runs |
| Home.Countdown.Tick | src/pages/Home.tsx:22-35 | once Eid has come the timer stops and the reading stays; before that the reading is the split of the time left |
| CalendarService.TypeName | src/services/calendarService.ts:70 | each event type has its own name in requests |
| CalendarService.FixtureTypesMatch | src/services/calendarService.ts:14-39 | every demonstration event is filed under its own type |
| CalendarService.FixtureIdsInOrder | src/services/calendarService.ts:14-39 | each schedule's ids are 1 to 10 in order |
| CalendarService.FixtureDatesIncrease | src/services/calendarService.ts:14-39 | the days within each schedule strictly increase |
| CalendarService.AllFixtureEvents | src/services/calendarService.ts:47 | the full fallback is the 10 slaughter events followed by the 10 collection events |
| CalendarService.GetAllEvents | src/services/calendarService.ts:59-67 | the backend's events, or on failure both schedules |
| CalendarService.EventsPath | src/services/calendarService.ts:72 | the request path is `/events?type=` followed by the type's name |
| CalendarService.GetEventsByType | src/services/calendarService.ts:70-78 | the backend's events, or on failure the schedule of the type, all of that type |
| CalendarService.TypedFallbacksPartitionAll | src/services/calendarService.ts:59-78 | the full fallback is the two typed fallbacks joined, and each event is in its own type's fallback |
| CalendarPage.EventsShown | src/pages/Calendar.tsx:34 | the selected tab's events, a definition; PageEventsAreServicePrefix states they match the service's schedule |
| CalendarPage.PageEventsAreServicePrefix | src/pages/Calendar.tsx:14-24 | the page's three events of each type agree in id, day, animals and place with the first three of the service's schedule |
| CalendarPage.EventsForDate | src/pages/Calendar.tsx:31-40 | nothing without a selected date; otherwise exactly the tab's events on that day, of which there is at most one |
| CalendarPage.AtMostOneEventADay | src/pages/Calendar.tsx:14-24 | each tab's three events fall on different days, so a day selects at most one of them |
| CalendarPage.DatesWithEvents | src/pages/Calendar.tsx:43-46 | the dates of the tab's events, one per event, in order |
| CalendarPage.DateOfEventMarked | src/pages/Calendar.tsx:43-46 | the day of each of the tab's events is marked |
| CalendarPage.IsBooked | src/pages/Calendar.tsx:96-100 | the day marker, a definition: some event date on the same calendar day; BookedIffEvents states it agrees with the day's event list |
| CalendarPage.BookedHasEvents | src/pages/Calendar.tsx:96-100 | a marked day lists at least one event |
| CalendarPage.BookedIffEvents | src/pages/Calendar.tsx:96-100 | a day is marked exactly when it lists an event, and every listed event is on a marked day |
| CalendarPage.TimeOfDayIgnored | src/pages/Calendar.tsx:35-39 | two instants on the same day select the same events |
| ConfigService.BoolText | src/services/configService.ts:31 | the flag is stored as "true" or "false" |
| ConfigService.ParseStored | src/services/configService.ts:9-12 | true when nothing is stored, otherwise whether the stored text is exactly "true" |
| ConfigService.StoredFlagRoundTrip | src/services/configService.ts:9-31 | a stored flag reads back as the flag stored |
| ConfigService.OnlyExactTrueIsTrue | src/services/configService.ts:11 | "True", "1" and "" all read as false |
| ConfigService.ConfigStore.constructor | src/services/configService.ts:7-13 | the flag is read from the storage slot, and no event has been sent |
| ConfigService.ConfigStore.Get | src/services/configService.ts:24-26 | the current flag |
| ConfigService.ConfigStore.Set | src/services/configService.ts:29-36 | the flag and the slot take the value, and one change event carrying it is sent |
| ConfigService.SetThenReload | src/services/configService.ts:7-36 | a set value is read back at once and by a service created afresh over the same storage |
| Profile.ProfileErrors | src/pages/Profile.tsx:16-20 | each message appears exactly when its rule is broken, and none exactly for an accepted form |
| Profile.PasswordErrors | src/pages/Profile.tsx:25-32 | each field's length message appears exactly when it is short, and the mismatch message, on the confirmation only, exactly when the passwords differ |
| Profile.PasswordErrorsIffInvalid | src/pages/Profile.tsx:25-32 | the password form is accepted exactly when there are no messages |
| Profile.UpdateProfile | src/pages/Profile.tsx:37-49 | the updated user is user "1" with the submitted name, e-mail and phone |
| Profile.UpdatePassword | src/pages/Profile.tsx:52-59 | the password update always succeeds |
| Profile.ProfileOf | src/pages/Profile.tsx:114-120 | a loaded user fills the form, a missing or empty phone as "" |
| Profile.UpdateThenLoadRoundTrip | src/pages/Profile.tsx:37-120 | a submitted profile, loaded back, gives the submitted form |
| Profile.ProfilePage.constructor | src/pages/Profile.tsx:70-88 | both forms empty and unchanged |
| Profile.ProfilePage.Render | src/pages/Profile.tsx:114-120 | a loaded user resets an untouched profile form to the user's values; an edited form is kept |
| Profile.ProfilePage.EditProfile | src/pages/Profile.tsx:71-78 | the profile form holds the typed values |
| Profile.ProfilePage.EditPasswords | src/pages/Profile.tsx:81-88 | the password form holds the typed values |
| Profile.ProfilePage.SubmitProfile | src/pages/Profile.tsx:91-99 | an accepted profile is sent and reported; a rejected one does nothing |
| Profile.ProfilePage.SubmitPassword | src/pages/Profile.tsx:102-111 | an accepted password form is reported and emptied; a rejected one stays as typed |
| Profile.EditSurvivesLoad | src/pages/Profile.tsx:114-120 | an edit made before the user loads is not overwritten |
| Register.RegisterPage.constructor | src/pages/Register.tsx:13-19 | empty inputs, terms not accepted, not loading |
| Register.RegisterPage.Fill | src/pages/Register.tsx:13-19 | the inputs hold the typed values |
| Register.RegisterPage.RedirectIfSignedIn | src/pages/Register.tsx:24-28 | a visitor with a token is sent to /dashboard |
| Register.RegisterPage.HandleRegister | src/pages/Register.tsx:30-77 | differing passwords stop first and unaccepted terms second; otherwise the user is registered and welcomed, the page goes to /dashboard, and loading rises then falls |
| Register.MismatchReportedFirst | src/pages/Register.tsx:33-49 | when both guards fail, the password mismatch is the one reported |
| AdminRoute.AdminGate.constructor | src/components/Auth/AdminRoute.tsx:12-13 | loading, not an administrator |
| AdminRoute.AdminGate.Render | src/components/Auth/AdminRoute.tsx:41-49 | the spinner exactly while loading, then the children exactly for an administrator, otherwise a redirect to /login |
| AdminRoute.AdminGate.CheckAdminStatus | src/components/Auth/AdminRoute.tsx:16-36 | a signed-in user is an administrator exactly when their id is "1", and anyone else is told they lack permission; an error is reported; loading ends |
| AdminRoute.GateDecision | src/components/Auth/AdminRoute.tsx:11-49 | the children are shown exactly to signed-in user "1"; everyone else is redirected to /login |
| AdminRoute.FallbackUserIsAdmin | src/components/Auth/AdminRoute.tsx:16-24 | a session signed in through a failed login holds the demonstration user and is admitted |

## Left out

- The HTTP client in `src/lib/axios.ts` is left out, and each backend call is a `Remote` value whose `Failure` runs the service's own catch branch. This is not what happens in the program. The client is built with the fixture list by the animal service (`src/services/animalService.ts:166`), the booking service (`src/services/bookingService.ts:114`) and the calendar service (`src/services/calendarService.ts:47`). Its response handler (`src/lib/axios.ts:44-53`) and its `get` (`src/lib/axios.ts:65-73`) then answer every failed request of those services with the whole fixture list as data. So in those three services the catch branches, the model's `Failure` cases, never run. Instead:
  - AnimalService.GetAnimalById, on a failed call, receives the whole animal array rather than the first animal with the id.
  - AnimalService.GetAnimalsByCategory, on a failed call, receives every demonstration animal, unfiltered.
  - BookingService.GetBookings, on a failed call, receives the bare booking array rather than a page with a total, and BookingService.GetBookingById receives the array rather than one booking.
  - CalendarService.GetEventsByType, on a failed call, receives both kinds of events rather than the one type.
  - AnimalService.BookShares and BookingService.UpdateBookingStatus report success in both branches, so for them the difference does not show.
  - The user service passes no fixture (`src/services/userService.ts:67`), so its failure branches do run as modelled.
- JSON text and browser storage are left out. The stored cart is already parsed, or marked unparseable. The stored token and flag are `Option<string>`.
- Timers, delays and the clock are parameters: the cart id's timestamp, the order date, the countdown's "now" and the Eid instant. Promises resolve in one step, and loading flags that rise and fall within a call are recorded only where a page shows them.
- The schema library's e-mail and URL checks are left out. Each form takes their verdicts as booleans (`emailOk`, `urlOk`).
- Date text, ISO formatting and time zones are left out. A calendar date is a `Day` (year, month counted from 0, day of the month), and the page's dates add a time of day.
- Floating point is left out. Prices, shares and pages are integers, and `Math.ceil` of a quotient is integer ceiling division.
- The animal service has no `getPaginatedAnimals`, `addAnimal`, `updateAnimal` or `deleteAnimal`. The animal management page's use of them is modelled only as the dispatch it makes and the outcome it is told. In the program as written each of these calls throws, since the methods are undefined: AnimalManagement.AnimalManagerPage.Settled then only ever takes its failure branch, and AnimalManagement.AnimalManagerPage.Loaded never runs, so the page count stays at 1. The delete button with its confirmation dialog is not modelled.
- File uploads are left out. A chosen file is a flag plus the preview URL the browser would create, given as a parameter.
- Rendering, styling, the toast library, routing and the service singletons are left out. Toasts are their title text; navigation is the path.
- Non-ASCII case mapping is left out. Upper- and lower-casing follow ASCII.
- JavaScript numbers are non-negative decimal integers. The pages' `parseInt` is not modelled: the parsed value is a parameter of each operation that reads a typed number (`None` standing for NaN), so partial parses such as `parseInt("3abc")` giving 3 are left to the caller.
- BookingService.PageOf: a page size below 1 is excluded. The callers always use 5 or 10.
- AddBooking.Submit: the form's shares are an integer, so a NaN share count from the number input is not modelled.
- Catch branches that cannot run are left out. Registration and the animal list always produce a value, so the "Registration failed" and "Failed to load animals" toasts are never reached.
- Profile.PasswordErrors: the mismatch check runs alongside the length checks. The schema library's rule for skipping a refinement after other failures is not modelled.
- The detail page's image gallery and payment-method choice are left out. They do not affect shares, cart or price.

## Findings

| source | as written | input that shows it | evidently intended | confidence | as-written member | corrected member |
|---|---|---|---|---|---|---|
| src/pages/AnimalDetail.tsx:73-78 | a typed share count is bounded by the animal's remaining shares, and the add button is disabled only when no shares are available, so the cart can hold more shares than remain | 4 shares remaining, 3 already in the cart, type 4: the count is accepted, the add stays enabled, and the cart ends with 7 shares | the typed count bounded by the available shares (remaining minus those in the cart), as the + button and the input's `max` already are, and the add button enabled only for a count between 1 and the available shares (or the count reset after each add); bounding the typed count alone still overbooks, because the count is not reset after an add and the button stays enabled while any share is available (AnimalDetail.TypedBoundAloneOverbooks, AnimalDetail.PageOverbooks) | not executed | AnimalDetail.OverbookingAsWritten | AnimalDetail.CorrectedAddNeverOverbooks |
