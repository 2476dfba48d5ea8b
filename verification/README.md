# ShareRent front end — a Dafny model

ShareRent is a React front end for a peer-to-peer rental marketplace. It has
no domain logic on the server side of this code base; what it does have is a
set of small decision procedures in its pages and components. This project
models them as immutable datatypes and pure transition functions, and proves
what the pages promise about them:

- **API client** (`src/lib/api.ts`): the request step attaches
  `Bearer <token>` only when a token is stored; the response step turns every
  failure into exactly one toast, by status (401, 403, 404, 500, other) or
  for "no response". Only a 401 clears the token, and it loads the document
  `/login` unless the document path already is `/login`. Login stores the
  token only when the reply carries a non-empty one; logout removes it. The
  token store, the document path, the router's route and the toasts shown so
  far form one `Client` value. The HTTP transport is replaced by the reply
  the backend gives, passed in as a parameter.
- **Document path and route**: the app runs under a hash router, so the
  view is the part of the URL after `#`. `navigate()` changes only that
  route (`Client.route`); assigning `window.location.href` loads a new
  document (`Client.location`) and, with no `#` in the new URL, resets the
  route to `/`. The document path is the app base, `/` in development and
  `/share-n-rent/` in production (`vite.config.js:8`).
- **Sign-in and sign-up forms** (`Login.tsx`, `Register.tsx`):
  - the password check reports a mismatch before a short password;
  - the terms check comes after the password check;
  - nothing is sent unless both checks pass;
  - the payload is the form without the confirmation field;
  - the error text falls back from `message` to `error` to the page default.
- **Listing wizard** (`CreateListing.tsx`): a four-step machine.
  - Each step renders its own controls, and the Next guards are per step.
  - The image list supports append and JavaScript `splice(i, 1)`.
  - Field and checkbox edits change one key only.
  - The review step lists exactly the chosen conditions.
  - Any sequence of interactions keeps the step in [1,4], with the data each
    passed guard demanded.
- **Item page** (`ItemDetails.tsx`):
  - the cyclic carousel;
  - the inclusive day count and subtotal, with dates as whole day numbers;
  - the date dialog;
  - the login gates on booking, favourites and reviews.
- **Display rules**:
  - the navigation bar: logged-in predicate, logout, menu, active link,
    scrolled style;
  - footer link slugs;
  - the dashboard's upcoming filter, badge colours, row buttons and request
    badge;
  - the hero's category rotation modulo 7;
  - the item card's defaults, badges, rating display, avatar, link and
    favourite flag.

Shared vocabulary is in `common.dfy`:

- `Wrappers`: `Option`, and JavaScript truthiness of optional strings.
- `Notify`: the toast record.
- `Ascii`: character classes and case mapping.
- `Modular`: uniqueness of the Euclidean remainder.

Each other file holds one module per source file.

Three points where the model follows the code over a looser reading of it:

- The navigation bar counts a user as logged in when the storage key is
  present (`!== null`), while the request step sends a header only when the
  token is truthy. The two differ on a stored empty string. `TokenValid`
  states that no reachable store holds one, and
  `Navbar.LoggedInIffHeaderSent` proves that the two agree on every such
  store.
- A failed sign-in answered with 401 goes through the same response step as
  any other call. The sign-in view is the route `/login` of a document at
  the app base, never the document `/login`, so the response step's guard
  does not hold there: the token is cleared, the "Session expired" toast is
  added, and the document `/login` is loaded, which discards the form and
  the message the page set on it (`LoginPage.UnauthorizedOnLoginView`).
- The carousel moves are modelled exactly as written. They also do
  arithmetic when an item has no images; the range lemmas assume at least
  one image.

## Model

| member | source | states |
|---|---|---|
| ApiClient.AttachToken | src/lib/api.ts:14-21 | A truthy stored token adds `Authorization: Bearer <token>` to the headers, and nothing else changes. Without one the request leaves unchanged. |
| ApiClient.Classify | src/lib/api.ts:31-89 | Each failure kind gets its own fixed toast (401, 403, 404, 500, no response). Any other status shows the server message, else the generic text. |
| ApiClient.GenericError | src/lib/api.ts:74-80 | The toast for any other status is titled "Error" and shows the non-empty server message, else the fixed fallback; it differs from every fixed toast. |
| ApiClient.OnFailure | src/lib/api.ts:28-92 | Each failure appends exactly its classified toast. A 401 clears the token and loads the document `/login` at route `/`, unless the document already is `/login`. Every other failure keeps token, document and route. |
| ApiClient.Call | src/lib/api.ts:26-93 | A success passes through with the client untouched. A failure is handled by the error step and re-rejected with the same error. |
| ApiClient.Login | src/lib/api.ts:97-103 | After the call, the token is the reply's exactly when the reply succeeded with a non-empty token. Otherwise it is what the call left. |
| ApiClient.Logout | src/lib/api.ts:110-112 | The token becomes absent; document, route and toasts are kept. |
| ApiClient.ErrorText | src/pages/Register.tsx:80-84 | The message shown for a rejected call: the non-empty `message`, else the non-empty `error`, else the page default. With no response it is always the default. |
| ApiClient.FormTextMatchesToast | src/lib/api.ts:73-80 | For a status outside 401/403/404/500 whose body has a message, the form text equals the toast's description. The form text never depends on the status. |
| ApiClient.TokenValidPreserved | src/lib/api.ts:97-112 | Calls, login and logout never store an empty token. |
| ApiClient.HeaderIffToken | src/lib/api.ts:16-19 | On a valid store, a request carries the header iff a token is stored, and the header is `Bearer ` plus that token. |
| ApiClient.OneToastPerFailure | src/lib/api.ts:31-91 | Every failure adds exactly one toast, its classification. Only a 401 can change the token. |
| ApiClient.ConnectionErrorDistinct | src/lib/api.ts:82-89 | The connectivity toast differs from every toast a server response yields. |
| ApiClient.ServerErrorIgnoresMessage | src/lib/api.ts:65-72 | A 500 shows the fixed server-error toast whatever message the body carries. |
| ApiClient.LoginThenRequestCarriesToken | src/lib/api.ts:97-101 | After a login answered with token `abc`, any request carries `Bearer abc`. |
| ApiClient.LogoutThenRequestUnchanged | src/lib/api.ts:110-112 | After logout the request step adds no header. |
| ApiClient.UnauthorizedElsewhere | src/lib/api.ts:34-45 | A 401 on any document other than `/login` leaves the token absent, loads `/login` at route `/`, and adds the session toast. |
| ApiClient.UnauthorizedFromBase | src/lib/api.ts:34-45 | From a document at the app base, a 401 always loads `/login` at route `/`. |
| Navbar.Logout | src/components/layout/Navbar.tsx:131-134 | The logout item leaves the user logged out after a page load of the document `/` at route `/`, with toasts kept. |
| Navbar.IsLoggedIn | src/components/layout/Navbar.tsx:18 | A truthy token counts as logged in; on a valid store, logged in is exactly a truthy token. |
| Navbar.MobileLogout | src/components/layout/Navbar.tsx:284-288 | The mobile logout performs the same logout as the dropdown item and closes the menu, keeping the scrolled style. |
| Navbar.ToggleMenu | src/components/layout/Navbar.tsx:178 | The menu button flips the mobile menu and leaves the scrolled style alone. |
| Navbar.CloseMenu | src/components/layout/Navbar.tsx:219 | A mobile link closes the menu from either state. |
| Navbar.OnScroll | src/components/layout/Navbar.tsx:21-23 | The bar is in its scrolled style iff the offset exceeds 10. |
| Navbar.ActiveLinks | src/components/layout/Navbar.tsx:57-66 | A link is highlighted iff the router's current route equals its path. |
| Navbar.AtMostOneActive | src/components/layout/Navbar.tsx:29-33 | The three paths are distinct, so at most one link is ever highlighted. |
| Navbar.ToggleTwice | src/components/layout/Navbar.tsx:178 | Two presses of the menu button restore the bar. |
| Navbar.CloseAfterOpen | src/components/layout/Navbar.tsx:178-219 | Closing is idempotent, and a link pressed after opening a closed menu restores the bar. |
| Navbar.ScrollMonotone | src/components/layout/Navbar.tsx:21-23 | The scrolled style is monotone in the offset, independent of the menu, and only the latest scroll counts. |
| Navbar.LoggedInIffHeaderSent | src/components/layout/Navbar.tsx:18 | On every reachable token store, the bar's logged-in predicate agrees with the client sending a bearer header. |
| Navbar.LogoutDropsCredentials | src/components/layout/Navbar.tsx:284-288 | After either logout button, requests go out without credentials; the mobile one also closes the menu. |
| LoginPage.Credentials | src/pages/Login.tsx:27 | The call receives the typed email and password. |
| LoginPage.BeginSubmit | src/pages/Login.tsx:23-24 | While the call is in flight the error is cleared and loading is shown; the inputs are kept. |
| LoginPage.BeginSubmitTransient | src/pages/Login.tsx:21-43 | A stale error or loading flag does not affect the outcome; the form after submit is the in-flight form with loading off and the outcome's error. |
| LoginPage.Submit | src/pages/Login.tsx:21-43 | Loading ends after either outcome. Success adds the welcome toast, routes to `/` on the same document and keeps the login token. Failure shows the message, else the error, else "Invalid credentials…", and leaves the client as the error step left it. |
| LoginPage.RememberMeIrrelevant | src/pages/Login.tsx:14-27 | The remember-me box changes neither the call nor the resulting client or form. |
| LoginPage.SuccessLogsIn | src/pages/Login.tsx:26-32 | A success with a token leaves that token stored, the route at `/`, the document unchanged and no error. |
| LoginPage.UnauthorizedOnLoginView | src/pages/Login.tsx:33-39 | A 401 on the sign-in route of a document at the app base clears the token, adds the session toast and loads the document `/login` at route `/`. The message the page sets is on a form that load discards. |
| RegisterPage.Set | src/pages/Register.tsx:27-33 | Writing one input changes that field and keeps every other. |
| RegisterPage.HandleChange | src/pages/Register.tsx:27-38 | Typing clears the password error iff the input is a password input. Terms, loading and error are kept. |
| RegisterPage.CheckPasswords | src/pages/Register.tsx:40-52 | The check passes iff the passwords match and have at least 8 characters. A mismatch is reported as such; a short match as too short. |
| RegisterPage.ToPayload | src/pages/Register.tsx:71 | The payload carries the four form fields other than the confirmation. |
| RegisterPage.Submit | src/pages/Register.tsx:54-88 | A call is made iff the passwords pass and the terms are agreed, with the confirmation dropped from the payload. A failed check shows its own message and sends nothing. Success adds the toast and routes to `/login` on the same document; failure shows the fallback text. Loading is off once a call was made. |
| RegisterPage.MismatchBeforeLength | src/pages/Register.tsx:41-48 | Mismatched short passwords are reported as a mismatch. |
| RegisterPage.PasswordCheckBeforeTerms | src/pages/Register.tsx:56-66 | A failed password check hides the terms error and sends nothing. |
| RegisterPage.RetypeClearsPasswordError | src/pages/Register.tsx:34-37 | After a rejected password the error shows, and typing a password clears it. |
| RegisterPage.PayloadRoundTrip | src/pages/Register.tsx:71 | When the check passed, the payload plus the confirmation rebuilds the form. |
| RegisterPage.SignUpThenRejectedSignIn | src/pages/Register.tsx:71-77 | After a successful sign-up the route is `/login` on the same document; a sign-in answered with 401 there then loads the document `/login`. |
| ListingWizard.SetField | src/pages/CreateListing.tsx:44-57 | An input change sets the named field only; other fields and all conditions are kept. |
| ListingWizard.SetCondition | src/pages/CreateListing.tsx:59-67 | A checkbox sets the named condition only; the other conditions and every text field are kept. |
| ListingWizard.Upload | src/pages/CreateListing.tsx:69-80 | Without a file list nothing changes. Otherwise the old images come first, then the new ones. |
| ListingWizard.Splice1 | src/pages/CreateListing.tsx:82-86 | `splice(start, 1)` removes the element at the clamped start, negative starts counting from the end. Starts past the end remove nothing. |
| ListingWizard.RemoveImage | src/pages/CreateListing.tsx:82-86 | Removing a rendered index drops exactly that image. The rest keep their order, and the multiset loses one copy. |
| ListingWizard.NextBlock | src/pages/CreateListing.tsx:88-114 | Next is blocked on step 1 iff the title is empty, on step 2 iff there is no image, on step 3 iff price or location is empty. |
| ListingWizard.NextStep | src/pages/CreateListing.tsx:88-118 | A blocked Next shows its toast and stays; an unblocked one advances by one. |
| ListingWizard.PrevStep | src/pages/CreateListing.tsx:120-123 | Previous goes back one step and keeps the images and form. |
| ListingWizard.Offered | src/pages/CreateListing.tsx:193-612 | Step 1 renders Next and the title, category and description inputs; step 2 Next, Previous, upload and removal of a shown image; step 3 Next, Previous, the checkboxes and the other inputs; step 4 only Previous among these controls. |
| ListingWizard.Apply | src/pages/CreateListing.tsx:193-612 | A control the current step does not render has no effect. Next and Previous act as the step functions; every other control keeps the step. |
| ListingWizard.InitialValid | src/pages/CreateListing.tsx:23 | The wizard starts on step 1 in a valid state. |
| ListingWizard.ApplyValid | src/pages/CreateListing.tsx:88-123 | Any one interaction keeps the step in [1,4], with the data each passed guard demanded. |
| ListingWizard.RunValid | src/pages/CreateListing.tsx:88-123 | Any sequence of interactions keeps the wizard valid. |
| ListingWizard.UploadRemoveInverse | src/pages/CreateListing.tsx:69-86 | Uploading one image and removing it at its index restores the list. |
| ListingWizard.LabelsOn | src/pages/CreateListing.tsx:558-569 | A condition's label is listed iff the condition is on. |
| ListingWizard.ReviewLabel | src/pages/CreateListing.tsx:562-566 | Every condition has a non-empty review label. |
| ListingWizard.ReviewLabelInjective | src/pages/CreateListing.tsx:558-569 | Distinct conditions have distinct labels. |
| ListingWizard.ReviewConditions | src/pages/CreateListing.tsx:556-573 | "No special conditions" shows iff no condition is on; otherwise exactly the labels of the true conditions. |
| ListingWizard.ShowCategory | src/pages/CreateListing.tsx:491 | An empty category reads "Not selected". Otherwise the first letter is upper-cased and the rest is kept. |
| ListingWizard.CategoryRoundTrip | src/pages/CreateListing.tsx:491 | A category name stored in lower case shows as the original name iff no letter after the first is upper-case. |
| ListingWizard.OutdoorGearShown | src/pages/CreateListing.tsx:16-20 | The category `Outdoor Gear` reads back differently from its name on the review step. |
| ListingWizard.ShowDates | src/pages/CreateListing.tsx:548-550 | Both dates give "from to to"; a missing one gives "No specific dates". |
| ListingWizard.ShowDatesIff | src/pages/CreateListing.tsx:548-550 | The dates row reads "No specific dates" iff a date is missing. |
| ListingWizard.Submit | src/pages/CreateListing.tsx:125-140 | The Create Listing button with the terms box ticked gives the success toast and the new item's path. |
| ListingWizard.SubmittedListingComplete | src/pages/CreateListing.tsx:88-118 | Whatever controls the user operated from the start, a listing submitted through the Create Listing button has a title, an image, a price and a location. |
| ItemDetails.NextImage | src/pages/ItemDetails.tsx:247-250 | With no item the index is kept. The last index wraps to 0; any other index moves up by one. |
| ItemDetails.PrevImage | src/pages/ItemDetails.tsx:242-245 | With no item the index is kept. Index 0 wraps to the last; any other moves down by one. |
| ItemDetails.CarouselInRange | src/pages/ItemDetails.tsx:242-250 | With at least one image both moves keep the index in range. |
| ItemDetails.PrevNextInverse | src/pages/ItemDetails.tsx:242-250 | Prev undoes Next and Next undoes Prev. |
| ItemDetails.NextTimesModular | src/pages/ItemDetails.tsx:247-250 | k presses of Next move the index k places modulo the image count. |
| ItemDetails.FullCircle | src/pages/ItemDetails.tsx:247-250 | As many presses as images return to the start. |
| ItemDetails.Dots | src/pages/ItemDetails.tsx:372-410 | One indicator per image, and exactly the current one is highlighted. |
| ItemDetails.ClickDot | src/pages/ItemDetails.tsx:382-404 | A dot or thumbnail click shows that image, which is then the only highlighted one. |
| ItemDetails.JumpReachable | src/pages/ItemDetails.tsx:382-404 | Jumping to any image equals pressing Next the corresponding number of times modulo the count. |
| ItemDetails.RentalDays | src/pages/ItemDetails.tsx:258-259 | The day count is at least 1 and is the distance between the dates plus one. |
| ItemDetails.RentalDaysSymmetric | src/pages/ItemDetails.tsx:258 | The count does not depend on which date comes first. |
| ItemDetails.PriceOrZero | src/pages/ItemDetails.tsx:262 | The price used is the item's once loaded, else 0. |
| ItemDetails.Subtotal | src/pages/ItemDetails.tsx:262 | The subtotal is days times the (possibly fractional) price, and 0 before the item has loaded. |
| ItemDetails.SubtotalAdditive | src/pages/ItemDetails.tsx:262 | The subtotal is additive in days, one day costs the price, and it grows with the days for a non-negative price. |
| ItemDetails.SelectDates | src/pages/ItemDetails.tsx:252-265 | The dates are stored. A complete range sets the day count and subtotal and closes the picker; an incomplete one keeps them. `handleDateSelection` has no caller in the page; the reachable path is `ItemDetails.PickStart` and `ItemDetails.PickEnd`. |
| ItemDetails.PickStart | src/pages/ItemDetails.tsx:684-687 | The start input changes only the start date. |
| ItemDetails.PickEnd | src/pages/ItemDetails.tsx:697-709 | The end input stores the end. With a start already chosen it sets the day count and subtotal. |
| ItemDetails.ApplyDates | src/pages/ItemDetails.tsx:723-734 | Apply closes the dialog iff both dates are set. Otherwise it asks for them and changes nothing. |
| ItemDetails.DialogMatchesSelection | src/pages/ItemDetails.tsx:697-709 | Typing both dates in the dialog gives the same totals as a complete selection. |
| ItemDetails.BookNow | src/pages/ItemDetails.tsx:267-292 | Logged out: a toast and `/login` with redirect `/items/{id}`. Logged in with a date missing: the picker opens and nothing is booked. Otherwise it books. |
| ItemDetails.FavoriteClick | src/pages/ItemDetails.tsx:212-230 | Logged out: a login toast and nothing toggles. Logged in: the flag flips, and the toast names the new state. |
| ItemDetails.FavoriteTwice | src/pages/ItemDetails.tsx:222 | Two logged-in clicks restore the booking state. |
| ItemDetails.ReviewClick | src/pages/ItemDetails.tsx:499-514 | The login prompt shows iff the user is logged out. |
| ItemDetails.FirstBookOpensPicker | src/pages/ItemDetails.tsx:278-281 | The first Book press of a logged-in visit opens the picker. |
| ItemDetails.LoginGatesAgree | src/pages/ItemDetails.tsx:212-292 | Reviewing, saving and booking each ask the user to sign in exactly when logged out, with toasts of the same title, and a logged-out click changes no booking state. |
| ItemDetails.ApplyThenBook | src/pages/ItemDetails.tsx:267-292 | After Apply accepts the dates, a logged-in Book books them; while a date is missing Book reopens the picker. |
| ItemDetails.BookingFlow | src/pages/ItemDetails.tsx:267-292 | On a logged-in visit Book opens the picker, entering both dates and Apply close it with that range's day count and subtotal, and Book then books the range. |
| Footer.LinkPath | src/components/layout/Footer.tsx:62 | Every path is `/` followed by the slug of the label. |
| Footer.Slug | src/components/layout/Footer.tsx:62 | A slug is empty iff its label is. |
| Footer.QuickLinkPath | src/components/layout/Footer.tsx:46 | `Home` links to `/`; every other quick link to its slugged path. |
| Footer.SlugShape | src/components/layout/Footer.tsx:62 | A slug has no whitespace or upper-case letter and is never longer than its label. |
| Footer.LinkPathShape | src/components/layout/Footer.tsx:46 | Every footer path after its `/` has no whitespace or upper-case letter. |
| Footer.SlugOfNoSpace | src/components/layout/Footer.tsx:62 | Without whitespace the slug is the lower-cased label. |
| Footer.SlugIdempotent | src/components/layout/Footer.tsx:62 | Slugging a slug gives it back. |
| Footer.SlugAppend | src/components/layout/Footer.tsx:62 | A prefix ending in a non-space slugs independently of what follows. |
| Footer.SlugOfRun | src/components/layout/Footer.tsx:62 | A whitespace run of any length before a word becomes one `-`. |
| Footer.TwoWords | src/components/layout/Footer.tsx:62 | Two words with a space slug to their slugs joined by `-`. |
| FooterExamples.HomeExample | src/components/layout/Footer.tsx:43-46 | The quick link `Home` goes to `/`. |
| FooterExamples.HowItWorksExample | src/components/layout/Footer.tsx:43-46 | `How It Works` goes to `/how-it-works`. |
| FooterExamples.ListAnItemExample | src/components/layout/Footer.tsx:43-46 | `List an Item` goes to `/list-an-item`. |
| FooterExamples.MyListingsExample | src/components/layout/Footer.tsx:59-62 | `My Listings` goes to `/my-listings`. |
| FooterExamples.TermsOfServiceExample | src/components/layout/Footer.tsx:105-108 | `Terms of Service` goes to `/terms-of-service`. |
| Dashboard.Upcoming | src/pages/Dashboard.tsx:312 | A rental is kept iff its status is exactly "Upcoming", and the result is no longer than the input. |
| Dashboard.UpcomingAppend | src/pages/Dashboard.tsx:312 | Filtering distributes over concatenation. With `UpcomingSingle` this fixes the result to the kept rentals in their original order. |
| Dashboard.UpcomingSingle | src/pages/Dashboard.tsx:312 | One rental is kept iff it is upcoming. |
| Dashboard.UpcomingIdempotent | src/pages/Dashboard.tsx:312 | Filtering twice is filtering once. |
| Dashboard.SampleUpcoming | src/pages/Dashboard.tsx:16-47 | Of the page's three sample rentals, the panel shows the bike alone. |
| Dashboard.UpcomingPanel | src/pages/Dashboard.tsx:302-358 | Two placeholders while loading. Then the upcoming cards, with "No upcoming rentals" iff no rental is upcoming. |
| Dashboard.PanelCardsOrNote | src/pages/Dashboard.tsx:302-358 | Once loaded, the panel's cards are exactly the upcoming rentals, and the note shows iff there are none. |
| Dashboard.BadgeColor | src/pages/Dashboard.tsx:410-418 | Active is green, Upcoming is blue, any other status gray. |
| Dashboard.RowActions | src/pages/Dashboard.tsx:436-450 | "Request Extension" shows iff Active. The main button is enabled iff Completed, labelled "Leave Review" when enabled and "View Details" otherwise. |
| Dashboard.RowActionsConsistent | src/pages/Dashboard.tsx:410-450 | An extension never comes with an enabled main button. It shows exactly on green-badged rows, and the label tells whether the button is enabled. |
| Dashboard.UpcomingCardsLookUpcoming | src/pages/Dashboard.tsx:410-449 | Each rental the upcoming panel lists has, as a row of the Rentals tab, a blue badge, no extension and a disabled "View Details". |
| Dashboard.RequestsBadge | src/pages/Dashboard.tsx:178-184 | The badge shows iff there are requests, and its number is their count. |
| Dashboard.RequestsBadgeCounts | src/pages/Dashboard.tsx:178-181 | The badge disappears exactly on an empty list; one more request raises it by one. |
| Dashboard.RespondToRequest | src/pages/Dashboard.tsx:96-108 | Accept shows "Request accepted" and Decline "Request declined". |
| Dashboard.ResponsesDistinct | src/pages/Dashboard.tsx:96-108 | The two toasts differ, and neither depends on the request. |
| Hero.Tick | src/components/home/Hero.tsx:27 | On the reachable indices 0 to 6 a tick stays in [0,7). It moves up by one, and from 6 back to 0. |
| Hero.TicksModular | src/components/home/Hero.tsx:27 | k ticks from an in-range index give the index plus k modulo 7. |
| Hero.FullRotation | src/components/home/Hero.tsx:27 | Seven ticks return to the starting category. |
| Hero.EveryCategoryShown | src/components/home/Hero.tsx:8-14 | Starting from 0, the k-th tick shows category k, so every category is shown. |
| Hero.Visible | src/components/home/Hero.tsx:72-80 | A word is visible iff its position is the active index. |
| Hero.ExactlyOneVisible | src/components/home/Hero.tsx:77-79 | At every reachable index exactly one word is visible, the active one. |
| ItemCard.Defaults | src/components/ui/ItemCard.tsx:28-42 | An omitted currency, unit, rating, count, featured or new falls back to `$`, `day`, 0, 0, false, false. A passed value is kept. |
| ItemCard.InitialOf | src/components/ui/ItemCard.tsx:146 | The initial is the name's first character upper-cased, or empty for an empty name. |
| ItemCard.AvatarOf | src/components/ui/ItemCard.tsx:139-148 | No owner gives no avatar. A truthy image URL gives the photo; otherwise the name's initial. |
| ItemCard.AvatarNeverBlank | src/components/ui/ItemCard.tsx:139-148 | A photo avatar has a non-empty source; an initial is at most one character, empty iff the name is, and never lower-case. |
| ItemCard.Render | src/components/ui/ItemCard.tsx:52-148 | The link is `/items/` followed by the id. The Featured badge and highlight show iff featured, New iff new. The rating shows iff above 0, the count iff rating and count are above 0. The heart is filled iff favourited. |
| ItemCard.ToggleFavorite | src/components/ui/ItemCard.tsx:46-50 | The heart flips the favourite flag. |
| ItemCard.ToggleTwice | src/components/ui/ItemCard.tsx:49 | Two clicks restore the flag and the rendered card. |
| ItemCard.BareCard | src/components/ui/ItemCard.tsx:32-41 | With every optional prop omitted the card shows `$`, `/day`, no rating and no badges. |
| ItemCard.CountNeedsRating | src/components/ui/ItemCard.tsx:116-122 | A review count is never shown without a rating. |
| ItemCard.LinkInjective | src/components/ui/ItemCard.tsx:54 | Two cards link to the same page iff they show the same item id. |
| ItemCard.InitialShape | src/components/ui/ItemCard.tsx:146 | The initial is at most one character and never lower-case. A lower-case first letter becomes upper-case. |
| Ascii.Lower | src/components/layout/Footer.tsx:62 | Lower-casing keeps the length and maps each character by the ASCII case rule. |
| Wrappers.OrElse | src/pages/Register.tsx:80-84 | The fallback of an optional string: its value when truthy, otherwise the default. |

## Left out

- The axios transport and HTTP itself. A call is the reply the backend
  would give, passed in as a parameter.
- `localStorage` and `window.location`. They are the `token`, `location`
  and `route` fields of `ApiClient.Client`. What the host serves for a
  document outside the app base, such as `/login` after a 401, is not part
  of this model.
- The REST wrappers `src/lib/api.ts:114-207` (items, bookings, reviews,
  profile). They are plain calls through the same client, with no logic of
  their own.
- Toast rendering, the toast queue's limits and dismissal. A toast is an
  entry appended to the client's log.
- Timers:
  - Hero's 3-second interval is modelled as the tick it performs.
  - The 2-second redirect after a listing is created is modelled as the
    path it goes to.
  - The simulated loading delays of the dashboard and item page are
    modelled as a `loading` flag.
- Scroll and parallax listeners, apart from the navigation bar's
  `scrollY > 10` rule. The offset there is a `real`.
- Floating point:
  - the item page's service fee and total;
  - the wizard's progress-bar width;
  - `rating.toFixed(1)`: the card carries the rating value, not its text.
- Dates. `Date` objects and millisecond arithmetic become whole day
  numbers, so `Math.ceil` of a day difference is the integer difference.
- `toLowerCase`, `toUpperCase` and `\s` on non-ASCII text. The model covers
  ASCII letters and the ASCII whitespace characters 9 to 13 and 32.
- String lengths in UTF-16 code units. A string is a sequence of
  characters.
- `handleInputChange` for an input whose `name` is not a form key. Such an
  input would add a new key; the model's fields are the form's own.
- The HTML `required` attributes of the sign-in, sign-up and wizard inputs.
  The wizard's terms checkbox is modelled as the `termsChecked` argument
  of `ListingWizard.Submit`.
- ListingWizard.Submit: models only the Create Listing button on step 4. On
  an earlier step, pressing Enter in a text input also submits the form
  (implicit submission); the model does not cover that path.
- ListingWizard.SubmittedListingComplete: covers listings submitted through
  the Create Listing button. On an earlier step, pressing Enter in a text
  input submits the form before the later steps' guards have run, so an
  image, price and location are not promised on that path.
- ItemDetails.Subtotal: exact real arithmetic; the binary floating-point
  rounding of `days * price` is not modelled.
- The wizard's other review rows (title, description, price, location),
  which print the stored text or a fixed fallback.
- ItemDetails.BookNow: the success toast's text, which formats the dates
  with `toLocaleDateString`, is not modelled. The result records the dates
  and the confirmation path.
- The item page's loading and fetch, the share button (clipboard), the
  dialog's Cancel button, and the review form.
- The dashboard's static statistics, the recent-activity list, and the
  listing and request cards beyond the request badge. These render fixed
  sample data.
- Item card hover state and styling other than the featured highlight and
  the heart fill.
- `src/components/DjangoConnectionStatus.tsx`, `src/pages/Browse.tsx`, the
  hover-only state of the category and how-it-works sections, the static
  pages, routing and build configuration. None of them is part of this
  model.
- ItemCard.Defaults: `reviewCount` is modelled as an integer, while the
  source's type is a JavaScript number that could be fractional.
