# Sceneflix client core, modelled in Dafny

Sceneflix is a React client for browsing and booking events over a hosted database and
identity service. This project models the client's own logic:

- the watchlist ("My List") kept in browser storage;
- the session provider (`user`, `loading`, `error`);
- the sign-up form's validation and the login page's error classification;
- the event page's ticket selection, total, quantity stepper and "Book Now" gate;
- the checkout page's reading of the target "Book Now" navigates to, its defaults and
  its booking draft;
- the home page's hero and rails, the category page's fetch, the My List page and the
  event card's heart button.

Each source file is one Dafny module. `Types` holds the shared records. `JsText` writes out
the JavaScript string built-ins the pages rely on: white space, `trim`, `includes`,
`toLowerCase`, number-to-text, `parseInt` and character search. `Url` reads a navigation
target the way the checkout page does: the router's `:eventId` parameter and
`URLSearchParams.get` on the query. Stateful code is modelled as classes whose
fields are the component's state cells. Handlers are methods with `modifies` clauses.
Pure expressions are functions with lemmas about them.

The database and identity services never throw: they return `{error}`, `null` or `[]`.
So every gateway answer is a parameter of the method that awaits it. A thrown value is
`Types.Thrown`: an `Error` object with its message, or anything else, which gets the
caller's fallback text.

The model follows the code where its behaviour may surprise:

- `signup` resolves to nothing, so the sign-up page never sees a "needs confirmation"
  signal and always schedules the redirect home.
- Checkout ignores the event's ticket offerings and charges a flat 500 per ticket. It
  raises no "ticket unavailable" error. A ticket type without an offering shows a total of
  0 on the event page, and Book Now still proceeds.
- The checkout quantity read from the URL is not clamped: `0`, `-3` and NaN reach the draft.
- The watchlist never stores a second entry with an id it already holds: adding, removing
  and toggling keep its ids distinct. The rails on the home page keep duplicates.
- "Book Now" writes the id and the ticket type into the checkout target without encoding
  them.

## Model

| member | source | states |
|---|---|---|
| Types.MessageOf | src/context/AuthContext.tsx:60 | an `Error` yields its own message, any other thrown value the fallback text |
| JsText.TrimEmptyIffBlank | src/pages/Signup.tsx:20 | `s.trim()` is empty exactly when every character of `s` is white space |
| JsText.ToLower | src/pages/CategoryPage.tsx:18 | lower-casing keeps the length and maps each character on its own (A-Z to a-z, everything else unchanged) |
| JsText.ToLowerIdempotent | src/pages/CategoryPage.tsx:18 | lower-casing a lower-cased string changes nothing |
| JsText.DecimalString | src/pages/EventDetail.tsx:51 | the printed quantity is a non-empty run of decimal digits |
| JsText.Trim | src/pages/Signup.tsx:20 | `trim` never lengthens the text, and a non-empty result neither starts nor ends with white space |
| JsText.Contains | src/pages/Login.tsx:34-37 | `includes` holds only when the needle is no longer than the text |
| JsText.ParseInt | src/pages/Checkout.tsx:15 | `parseInt` of blank text is NaN; a negative result needs a leading `-` after the white space; text starting with a decimal digit and no `0x` prefix gives a non-negative number |
| JsText.ParseDigits | src/pages/Checkout.tsx:15 | `parseInt` is NaN exactly when no digit of the radix follows the leading white space, the sign and the `0x` prefix |
| JsText.ParseIntOfDecimalString | src/pages/Checkout.tsx:15 | `parseInt` of a printed non-negative integer gives that integer back |
| BookmarkService.AddedIfAbsent | src/BookmarkService.ts:22-23 | the list after an add extends the old one by at most one entry, holds the id, and grows exactly when the id was absent, and then by `e` itself at the end |
| BookmarkService.CountId | src/BookmarkService.ts:22 | the number of entries with an id is at most the length, and zero exactly when no entry has it |
| BookmarkService.CountOnceWithoutDuplicates | src/BookmarkService.ts:22-23 | in a list with distinct ids, a present id occurs exactly once |
| BookmarkService.AddedIfAbsentKeepsIdsDistinct | src/BookmarkService.ts:22-24 | adding to a list with distinct ids keeps them distinct, and the added id occurs exactly once |
| BookmarkService.WithoutIdKeepsIdsDistinct | src/BookmarkService.ts:35 | filtering a list with distinct ids keeps them distinct |
| BookmarkService.WithoutId | src/BookmarkService.ts:35 | the filtered list holds exactly the entries with another id and is no longer than the input |
| BookmarkService.WithoutIdAppend | src/BookmarkService.ts:35 | filtering a concatenation filters each part, keeping their order |
| BookmarkService.WithoutIdSingleton | src/BookmarkService.ts:35 | a single entry is kept exactly when its id differs |
| BookmarkService.WithoutAbsentId | src/BookmarkService.ts:34-36 | removing an id no entry has stores the same list |
| BookmarkService.WithoutIdIdempotent | src/BookmarkService.ts:34-36 | removing the same id twice stores what removing it once did |
| BookmarkService.AddedIfAbsentIdempotent | src/BookmarkService.ts:22-24 | adding the same event twice equals adding it once, and the id is present afterwards |
| BookmarkService.RemoveUndoesAdd | src/BookmarkService.ts:48-56 | adding an event with a new id and then removing that id gives back the list |
| BookmarkService.BookmarkStore.GetBookmarks | src/BookmarkService.ts:8-16 | the stored array, or `[]` when the key is absent or the text unreadable; never throws |
| BookmarkService.BookmarkStore.Write | src/BookmarkService.ts:24 | a successful write replaces the stored list; a failed one changes nothing |
| BookmarkService.BookmarkStore.AddBookmark | src/BookmarkService.ts:19-29 | an absent id is appended after all prior entries; a present id, or a failed write, leaves storage as it was; distinct stored ids stay distinct, and after a successful write the id occurs exactly once |
| BookmarkService.BookmarkStore.RemoveBookmark | src/BookmarkService.ts:32-40 | storage becomes the old list filtered to other ids, so the id is gone; a failed write changes nothing; distinct stored ids stay distinct |
| BookmarkService.BookmarkStore.IsBookmarked | src/BookmarkService.ts:43-45 | true exactly when some stored entry has the id |
| BookmarkService.BookmarkStore.ToggleBookmark | src/BookmarkService.ts:48-56 | answers whether the id was absent before; after a successful write the answer equals stored membership and the list is the old one plus the event or minus its id; distinct stored ids stay distinct, the id then occurring once or not at all |
| BookmarkService.ToggleTwice | src/BookmarkService.ts:48-56 | from a list without the id, two toggles answer true then false and restore the list |
| AuthContext.AuthProvider.constructor | src/context/AuthContext.tsx:17-19 | starts with no user, loading, no error |
| AuthContext.AuthProvider.Mount | src/context/AuthContext.tsx:35-40 | the mount effect subscribes and changes no state cell |
| AuthContext.AuthProvider.RestoreSettled | src/context/AuthContext.tsx:23-33 | the session check sets `user` to the profile found, or none, and always clears `loading` |
| AuthContext.AuthProvider.AuthStateChanged | src/context/AuthContext.tsx:38-40 | the auth-change callback replaces `user` while subscribed |
| AuthContext.AuthProvider.Unmount | src/context/AuthContext.tsx:42-44 | the cleanup unsubscribes and leaves the state cells alone |
| AuthContext.AuthProvider.Login | src/context/AuthContext.tsx:47-64 | a sign-in error is recorded and rethrown with `user` unchanged; success sets `user` to the refetched profile and no error |
| AuthContext.AuthProvider.Signup | src/context/AuthContext.tsx:66-88 | same shape as login with the "Signup failed" fallback; success sets `user` to the refetched profile, possibly none |
| AuthContext.AuthProvider.Logout | src/context/AuthContext.tsx:90-100 | always ends with no user and no error |
| AuthContext.AuthProvider.UpdateProfile | src/context/AuthContext.tsx:102-116 | with no user, fails with "No user logged in" before any gateway call; otherwise `user` becomes the refetched profile |
| AuthContext.StartUp | src/context/AuthContext.tsx:17-45 | after mount and the session check, `user` is the restored profile, loading is over and the callback is live |
| AuthContext.LoginThenFailedLogin | src/context/AuthContext.tsx:47-64 | a failed login after a successful one keeps the first user and records the message |
| Signup.IsValidEmail | src/pages/Signup.tsx:22 | an accepted address has at least five characters, an `@` and a `.`, and does not start with white space |
| Signup.EmailPatternIff | src/pages/Signup.tsx:22 | the e-mail pattern accepts exactly the addresses with no white space, one `@` not in first place, and after it a `.` that is neither next to the `@` nor last |
| Signup.EmailExamples | src/pages/Signup.tsx:22 | accepts `fan@mail.example.com`; rejects `fan@localhost` and `fan club@mail.com` |
| Signup.ValidateForm | src/pages/Signup.tsx:19-26 | passes exactly when all five checks pass; otherwise reports the first failing check's message, in the fixed order |
| Signup.SignupPage.constructor | src/pages/Signup.tsx:13-15 | starts with no error, no success message, not loading |
| Signup.SignupPage.HandleSubmit | src/pages/Signup.tsx:28-53 | a validation failure reports its message and never reaches the provider; a rejected signup reports the error; success always takes the redirect branch and never sets the success message; `loading` ends false; the provider's `loading` and subscription are untouched |
| Login.ClassifyLoginError | src/pages/Login.tsx:30-41 | an unconfirmed-address message gives the confirmation error plus the retry hint; otherwise bad credentials give the friendly error; any other message is shown verbatim |
| Login.FillAllFieldsShownVerbatim | src/pages/Login.tsx:23-40 | the empty-fields message matches no pattern and is shown as it is, with no hint |
| Login.BadCredentialsMessage | src/pages/Login.tsx:37-38 | the provider's "Invalid login credentials" becomes "Email or password is incorrect. Please try again." |
| Login.UnconfirmedTakesPrecedence | src/pages/Login.tsx:34-38 | a message naming both cases is classified as unconfirmed |
| Login.LoginPage.constructor | src/pages/Login.tsx:10-12 | starts with no error, no info, not loading |
| Login.LoginPage.HandleSubmit | src/pages/Login.tsx:16-45 | empty fields show the fill-in message without calling login. A rejection shows the classified message, keeps the session's user and records the error in the provider. Success shows the success note, clears the provider's error and schedules the redirect. `loading` ends false. The provider's `loading` and subscription are untouched |
| Login.SubmitEmptyPassword | src/pages/Login.tsx:23-25 | an empty password ends with the fill-in message, no hint and an untouched provider |
| EventDetail.FirstOfType | src/pages/EventDetail.tsx:79 | the index of the first offering of the type, or the length when none has it |
| EventDetail.SelectedTicket | src/pages/EventDetail.tsx:79 | none exactly when no offering has the type; otherwise an offering of that type |
| EventDetail.SelectedIsFirst | src/pages/EventDetail.tsx:79 | the selected offering occurs no later than any offering of its type |
| EventDetail.UnitPrice | src/pages/EventDetail.tsx:79-80 | the price of the first offering of the type, or 0 when none has it |
| EventDetail.TotalPrice | src/pages/EventDetail.tsx:80 | the first matching offering's price times the quantity, and 0 when no offering has the selected type |
| EventDetail.TotalStep | src/pages/EventDetail.tsx:80 | one ticket more or fewer moves the total by exactly one unit price |
| EventDetail.TotalAtLeastUnitPrice | src/pages/EventDetail.tsx:80 | with non-negative prices and at least one ticket, the total is at least the unit price and not negative |
| EventDetail.CheckoutPath | src/pages/EventDetail.tsx:51 | the target starts with `/checkout/`, the id as a template prints it, `?ticketType=` and the type, and ends with `&quantity=` and the printed quantity |
| EventDetail.RouteParam | src/pages/EventDetail.tsx:10 | a route parameter is present exactly when the matched route declares it |
| EventDetail.ReadIdOnEventRoute | src/App.tsx:30 | on the event route, `id` is missing and `eventId` holds the path segment |
| EventDetail.EventDetailPage.constructor | src/pages/EventDetail.tsx:13-18 | starts with the spinner on, no event, type "GA", quantity 1, no offerings |
| EventDetail.EventDetailPage.FetchEvent | src/pages/EventDetail.tsx:20-38 | a falsy id changes nothing, so the spinner stays; otherwise event and offerings are stored, the heart shows the id's stored membership and `loading` is cleared |
| EventDetail.EventDetailPage.HandleBookmarkClick | src/pages/EventDetail.tsx:40-44 | no-op without an event. Otherwise the flag becomes the toggle's answer, which is stored membership after a successful write. Storage then holds the old list plus the event or minus its id. A failed write leaves storage as it was. Distinct stored ids stay distinct |
| EventDetail.EventDetailPage.HandleBookNow | src/pages/EventDetail.tsx:46-52 | no user goes to `/login`; a user goes to the checkout path carrying the id, type and quantity |
| EventDetail.EventDetailPage.Decrement | src/pages/EventDetail.tsx:217 | quantity becomes `max(1, q - 1)`, stays at least 1, and above 1 the total drops by one unit price |
| EventDetail.EventDetailPage.Increment | src/pages/EventDetail.tsx:224 | quantity grows by one, and the total by one unit price |
| EventDetail.EventDetailPage.SelectTicketType | src/pages/EventDetail.tsx:197-207 | picking an offered type selects an offering |
| EventDetail.OpenEventAsWritten | src/pages/EventDetail.tsx:10-34 | opened from the event route as written, the page never leaves the spinner and shows no event |
| EventDetail.OpenEventCorrected | src/pages/EventDetail.tsx:10-34 | reading the declared parameter, the page loads the fetched event and offerings |
| Checkout.TicketTypeOf | src/pages/Checkout.tsx:14 | an absent or empty parameter gives "GA", any other its own text; never empty |
| Url.CheckoutRouteParam | src/App.tsx:34 | a match hands over one non-empty segment, with no `/`, `?` or `#`, that follows a `/checkout/` written in any case of its letters |
| Url.TrimTrailingSlashes | src/App.tsx:34 | dropping the trailing `/` characters leaves a prefix of the path that does not end in `/`, and what is dropped is all `/` |
| Url.TrimSlashesAfter | src/App.tsx:34 | any run of `/` after a path not ending in `/` is dropped, and nothing more |
| Url.PathBeforeRest | src/App.tsx:34 | the router reads as the path exactly the text before the `?` or `#` that starts the query or fragment |
| Url.RoutePath | src/App.tsx:34 | `/checkout/<id>` in any case, followed by `/` characters, holds no `?` or `#` and trims back to `/checkout/<id>` |
| Url.RouteMatches | src/App.tsx:34 | the route matches every `/checkout/<id>` followed by any number of `/` and then a query, a fragment or nothing, whatever the case of `/checkout/`, and hands over `<id>` as written |
| Url.RouteMatchesLowerCase | src/App.tsx:34 | the route matches `/checkout/<id>` followed by a query, a fragment or nothing, and hands over `<id>` |
| Url.QueryOf | src/pages/Checkout.tsx:9 | the query is no longer than the target and holds no `#` |
| Url.KeyOf | src/pages/Checkout.tsx:14-15 | a pair's name is a prefix of the pair without `=` |
| Url.ValueOf | src/pages/Checkout.tsx:14-15 | a pair's value is a suffix of the pair, shorter than any non-empty pair |
| Url.SearchParam | src/pages/Checkout.tsx:14-15 | a value found in the query is shorter than the query |
| Url.ParserRewritesAreNotPlain | src/pages/EventDetail.tsx:51 | the segments `.` and `..`, a segment with `\`, and a type with a tab, all of which the browser's URL parser rewrites, are not plain text |
| Url.PairSplits | src/pages/Checkout.tsx:14-15 | `name=value` with no `=` in the name reads back as that name and that value |
| Url.SearchStep | src/pages/Checkout.tsx:14-15 | the reading takes the first pair's value when its name matches, and otherwise reads on past it |
| Url.SearchLastPair | src/pages/Checkout.tsx:14-15 | a query of one pair gives its value exactly when its name matches |
| Checkout.QuantityOf | src/pages/Checkout.tsx:15 | no or empty parameter counts one ticket; digits give a non-negative count; a negative count needs a leading `-` |
| Checkout.BookNowPathEnd | src/pages/EventDetail.tsx:51 | for an id that needs no escaping, the path of the Book Now target ends right before its `?` |
| Checkout.BookNowRouteParam | src/App.tsx:34 | the checkout route matches the Book Now target and hands over the id as printed |
| Checkout.BookNowQueryOf | src/pages/Checkout.tsx:9 | the query read from the Book Now target is the one Book Now wrote |
| Checkout.BookNowTargetSplits | src/App.tsx:34 | for an id and a type that need no escaping, the checkout route hands over the id and the query read is the one Book Now wrote |
| Checkout.NoFragmentInQuery | src/pages/EventDetail.tsx:51 | for a type with no `#`, the query Book Now writes holds none |
| Checkout.BookNowTypeReadBack | src/pages/Checkout.tsx:14 | reading `ticketType` from the query Book Now wrote gives the type back |
| Checkout.BookNowQuantityReadBack | src/pages/Checkout.tsx:15 | reading `quantity` from the query Book Now wrote gives the printed quantity back |
| Checkout.TicketTypeRoundTrip | src/pages/Checkout.tsx:14 | the type Book Now puts in its target is the type checkout reads from that target, an empty one reading as "GA", for an id and a type that need no escaping |
| Checkout.TargetQuantityRoundTrip | src/pages/Checkout.tsx:15 | the quantity Book Now puts in its target is the count checkout reads from that target |
| Checkout.QuantityDefault | src/pages/Checkout.tsx:15 | an absent or empty quantity parameter counts one ticket |
| Checkout.QuantityRoundTrip | src/pages/Checkout.tsx:15 | a quantity printed by Book Now is read back unchanged |
| Checkout.QuantityNotClamped | src/pages/Checkout.tsx:15 | `0` and `-3` pass through unclamped; `abc` is NaN |
| Checkout.NegativeQuantity | src/pages/Checkout.tsx:15 | `parseInt('-3')` is -3 |
| Checkout.NonNumericQuantity | src/pages/Checkout.tsx:15 | `parseInt('abc')` is NaN |
| Checkout.FlatTotal | src/pages/Checkout.tsx:32 | the total is the quantity times 500, and NaN exactly when the quantity is |
| Checkout.Draft | src/pages/Checkout.tsx:27-33 | the draft carries the user's id, the event id, `ticket_` plus the type, the quantity and its flat total |
| Checkout.CheckoutTotalMatchesEventTotal | src/pages/Checkout.tsx:32 | for a positive quantity, the checkout total equals the event page's total exactly when the selected offering costs 500 |
| Checkout.CheckoutPage.constructor | src/pages/Checkout.tsx:11-15 | starts not loading and with no error |
| Checkout.CheckoutPage.View | src/pages/Checkout.tsx:17-20 | no user redirects to login and renders nothing; otherwise the summary's total is the draft's total |
| Checkout.CheckoutPage.HandleConfirmBooking | src/pages/Checkout.tsx:22-41 | a falsy event id does nothing; otherwise it only navigates to the confirmation page with the draft, and `loading` ends false |
| Checkout.BookFromEventPage | src/pages/EventDetail.tsx:46-52 | Book Now, then Confirm on the checkout page reading that target, gives a draft with the user, the id as printed, the picked type ("GA" for an empty one) and quantity at the flat price, for an id and a type that need no escaping |
| Home.TrendingNow | src/pages/Home.tsx:50 | the rail is a prefix of techno followed by live, whose length is the smaller of 10 and the two lengths added |
| Home.TrendingKeepsDuplicates | src/pages/Home.tsx:50 | when both lists fit, the rail is their concatenation and counts every id as often as both lists together |
| Home.SharedEventShownTwice | src/pages/Home.tsx:50 | 4 techno and 3 live events sharing one id give 7 entries with that id twice |
| Home.TrendingStartsWithTechno | src/pages/Home.tsx:50 | the techno events open the rail; more than ten techno events fill it alone |
| Home.HomePage.constructor | src/pages/Home.tsx:8-11 | starts with no hero, empty rails, loading |
| Home.HomePage.FetchData | src/pages/Home.tsx:14-30 | a rejected fetch only clears `loading`; otherwise the hero is the first trending event when there is one, each rail is its list or `[]` for null, and `loading` is cleared |
| Home.HomePage.Rails | src/pages/Home.tsx:48-50 | three rails in page order: "Techno & House" with the techno list, "Live Concerts" with the live list, and "Trending Now" with the trending list, a prefix of the two joined of at most ten entries |
| Home.FirstLoad | src/pages/Home.tsx:14-30 | a first load picks the head of the trending list as hero, and Trending Now shows only fetched events |
| CategoryPage.Slug | src/pages/CategoryPage.tsx:18 | the slug is the parameter lower-cased character by character, with no capital left |
| CategoryPage.SlugIgnoresCase | src/pages/CategoryPage.tsx:18 | "Techno" and "techno" ask for the same slug |
| CategoryPage.CategoryPageState.constructor | src/pages/CategoryPage.tsx:8-10 | starts with no events and the spinner on |
| CategoryPage.CategoryPageState.StartFetch | src/pages/CategoryPage.tsx:13-18 | a falsy parameter fetches nothing; otherwise the spinner goes on, the list is emptied and the lower-cased slug is requested |
| CategoryPage.CategoryPageState.FinishFetch | src/pages/CategoryPage.tsx:17-25 | a null list or a thrown error leaves `[]`; `loading` is cleared in every case |
| CategoryPage.CategoryPageState.View | src/pages/CategoryPage.tsx:31-55 | spinner while loading, then the empty note or one rail titled "All {category} Events" in the original case |
| CategoryPage.Visit | src/pages/CategoryPage.tsx:12-29 | a visit requests the lower-cased slug; a null or failed fetch ends on the empty note |
| EventCard.DisplayPrice | src/ComponentEventCard.tsx:80 | the start price when there is one, otherwise 0 |
| EventCard.Card.constructor | src/ComponentEventCard.tsx:13 | the flag starts as the prop or the stored membership of the id |
| EventCard.Card.HandleBookmarkClick | src/ComponentEventCard.tsx:15-23 | the flag becomes the toggle's answer, which is stored membership after a successful write; the callback runs exactly when one was passed |
| EventCard.ClickWithStaleProp | src/ComponentEventCard.tsx:13-19 | a card told it is bookmarked for an event storage lacks adds it on click and stays filled |
| MyList.MyListPage.constructor | src/pages/MyList.tsx:8 | starts with an empty list |
| MyList.MyListPage.Mount | src/pages/MyList.tsx:10-13 | on mount the displayed list is the stored bookmarks |
| MyList.MyListPage.HandleRemoveBookmark | src/pages/MyList.tsx:15-18 | storage drops the id and the displayed list equals what storage then holds |
| MyList.MyListPage.View | src/pages/MyList.tsx:30-44 | the empty-state note exactly when the list is empty, otherwise one card per entry |
| MyList.ClickHeart | src/pages/MyList.tsx:40 | whether the card's toggle added or removed the event, it ends out of storage and off the page, other entries in place |

## Left out

- The database and identity services are not modelled. Their answers are method
  parameters, and they never throw.
- Browser storage is an abstract list with two failure flags. JSON text, quotas, and a
  stored value that parses to something other than an array are not modelled.
- The JavaScript regular-expression engine is not modelled. The e-mail check is a
  predicate over where the `@` and `.` fall.
- Strings are sequences of code points, not UTF-16 code units. Lengths of text outside the
  Basic Multilingual Plane differ from JavaScript's.
- JsText.ToLower: only A-Z are lower-cased. JavaScript's full Unicode case mapping is not
  modelled.
- JsText.ParseDigits: numbers are unbounded integers. Precision loss above 2^53, `-0`,
  `Infinity` and other floating-point behaviour are not modelled. NaN is `None`.
- Url.SearchParam: `+` and percent-escapes are not decoded, in names or values. The
  reading is exact only for text without `%` or `+`.
- Url.CheckoutRouteParam: the router's percent-decoding of the segment and its other
  routes are not modelled. Neither is the browser's URL parser, which runs on the target
  first. It deletes tab, LF and CR anywhere, reads `\` as `/` in the path, and resolves
  the segments `.` and `..`.
- TicketTypeRoundTrip: proved only for an id that is one path segment, and a type that
  stands for itself in a query.
  - The id must not be `.` or `..`, and must hold no `/`, `\`, `?`, `#`, `%`, tab, LF or CR.
  - The type must hold no `&`, `#`, `%`, `+`, tab, LF or CR.
  - Book Now encodes neither. A type with `&` or `#` is cut short. One with `+` or `%` is
    decoded into other text, and one with a tab or newline loses it.
  - An id of `.` or `..`, or one with `\`, is moved to another path, so the checkout
    route does not match.
- BookFromEventPage: proved only for the id and type TicketTypeRoundTrip admits. It
  starts from any id the page holds, the corrected route parameter or none; with none,
  the target and the draft carry `undefined`.
- `setTimeout` redirects are flags. Navigation targets are strings.
- The three home-page fetches under `Promise.all` are one step with one result. Their
  concurrency is not modelled.
- Rendering is not modelled beyond the view functions above. The hero, the rails, the
  navigation bar, the user menu, date formatting, images and styling are out.
- The booking-confirmation page draws its booking number from the clock and is not
  modelled.
- The user-profile page is not modelled; it only edits form fields and shows placeholder
  bookings.
- Routing and mounting are not modelled, except the event route's parameter name and the
  checkout route's reading of its target.
- React re-renders are not modelled. Effects and handlers run one at a time, to
  completion.

## Findings

| source | as written | input that shows it | evidently intended | confidence | as-written member | corrected member |
|---|---|---|---|---|---|---|
| src/pages/EventDetail.tsx:10 | reads the route parameter `id`, but the event route declares `:eventId` (src/App.tsx:30), so `id` is always undefined, the fetch returns before its `try`, and `loading` is never cleared | opening `/event/42` | read `eventId`, fetch event 42 and its offerings, then clear the spinner | not executed | EventDetail.OpenEventAsWritten | EventDetail.OpenEventCorrected |
