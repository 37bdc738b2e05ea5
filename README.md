# Travel booking front end: a verified model of its decision logic

This project models, in Dafny, the parts of a React travel-booking front end
that decide something. The rest of that front end renders tables and forms or
forwards data to a backend that is not modelled. The modelled parts are:

- **The session slice** (`src/fitur/AuthSlice.js`). It is a six-field record:
  `user`, `isError`, `isSuccess`, `isLoading`, `message` and `isAuthenticated`.
  - The record is updated by `reset`, `clearUserData` and the pending, fulfilled
    and rejected cases of the `Login`, `Me` and `Logout` requests. These cases
    are a pure reducer (`Reduce`, `Run`) and also a class, `AuthStore`. Each
    method of `AuthStore` assigns the fields as its case reducer does, and each
    is proved equal to the reducer.
  - The values each request settles with are modelled from an HTTP reply given
    as input.
  - Proved: the session invariant (never authenticated and in error at once,
    never successful and in error at once) holds after every sequence of
    actions that starts from the initial state. So does the exact frame of each
    case.
- **The backend origin** (`getApiBaseUrl`, in its three variants). One is
  common. The dashboard's variant falls back to `localhost:3000`. The profile
  page's variant strips `http:` or `https:` followed by two or more slashes.
- **JavaScript's `parseInt`** on the front end's inputs, with the round trip
  `parseInt(String(n)) == n`. Both the party-size input and the route
  parameter depend on it.
- **The booking form.** It covers:
  - the remaining seats of a package on its departure day, which is the
    capacity minus the settled bookings, proved equal to an independent sum;
  - the ordered checks before submission;
  - the request body;
  - the navigation after a booking succeeds;
  - the price shown.
- **The payment status page.** It covers:
  - the total lookup from status to badge;
  - the three banners;
  - the two-step fetch of the transaction and its booking;
  - the order in which the page chooses what to render.
- **The admin dashboard's statistics.** These are the pending and settled
  counts, the settled revenue (proved equal to an independent sum) and the
  badge colour.
- **The login page.** It covers:
  - the empty-field guard;
  - remember-me storage over a key-value map, whose round trip with the prefill
    effect is proved;
  - the precedence of error messages;
  - the effect that greets the user, redirects by role and shows at most one
    alert while the session invariant holds.
- **The package catalogue.** It covers which cards can be booked, their button
  texts, and where a booking click navigates.
- **The slide editor.** It covers the image checks, the form fields, the loop
  that builds the multipart request from the non-empty fields, and the
  error-message precedence.
- **The profile page.** It covers the password check, the update request and
  the message shown afterwards.

Only the values the front end inspects are modelled. `Js.JsValue` covers
undefined, null, booleans, integers, strings and objects. `Js.Reply` is an HTTP
result: a 2xx response, or a thrown error with or without a server response.
Reading a property of null or undefined throws a TypeError, which is modelled:
inside a `try` it becomes a failure without a response, and on the dashboard, where no `try` surrounds it, the page fails. Calendar days and
prices are integers. Navigation is a returned value. Component state is a class
whose fields the handlers assign.

Two behaviours of the code differ from what a reader of the pages might
expect. The model states what the code does:

- **The 'capture' status shows no banner.** Its badge is a success badge, but
  the paid banner shows only for `settlement` and `success`
  (`src/componen/landing/BookTrip/PaymentStatus.jsx:207`).
  `PaymentStatus.NoBannerForOtherListed` states this.
- **Remaining seats are not clamped.** The count can go below zero. Nothing
  rejects a negative count except the button's `disabled`
  (`src/componen/landing/BookTrip/BookingForm.jsx:69`, `:245`).
  `BookingForm.RemainingCanBeNegative` states this.

## Model

| member | source | states |
|---|---|---|
| Js.CaughtMessage | src/componen/landing/BookTrip/BookingForm.jsx:119 | `err.response?.data?.message \|\| fallback` is always truthy. It is the server's message when that is truthy and the fallback otherwise; without a response it is the fallback |
| Numbers.ParseInt | src/componen/landing/BookTrip/BookingForm.jsx:103-105 | `parseInt` gives NaN exactly when no digit follows the leading white space, the sign and the `0x` prefix |
| Numbers.ParseIntOfIntString | src/componen/landing/BookTrip/BookingForm.jsx:105 | `parseInt(String(n))` is `n` for every integer, negative ones included |
| Numbers.ParseCount | src/componen/landing/BookTrip/BookingForm.jsx:218 | `parseInt(value) \|\| 1` is never 0. A non-zero parsed value is kept; NaN and 0 become 1 |
| Numbers.ParseCountOfIntString | src/componen/landing/BookTrip/BookingForm.jsx:218 | every integer typed into the party-size input is kept, except 0, which becomes 1 |
| ApiBase.StripScheme | src/fitur/AuthSlice.js:6 | the host is unchanged iff it starts with neither `http://` nor `https://`; otherwise the host is exactly that prefix followed by the result |
| ApiBase.ApiBaseUrl | src/fitur/AuthSlice.js:4-8 | the origin starts with `https://` iff the page protocol is `https:`, and is that scheme followed by the stripped host; otherwise it starts with `http://` |
| ApiBase.DashboardHost | src/componen/Dashboard.jsx:36-40 | the dashboard's host is never empty. It is the stripped configured host, or `localhost:3000` when that is unset or strips to nothing |
| ApiBase.DashboardAgreesWhenConfigured | src/componen/Dashboard.jsx:36-40 | whenever a configured host strips to something non-empty, the dashboard's origin equals the common one |
| ApiBase.DashboardFallback | src/componen/Dashboard.jsx:38 | an unset host, and a host `https://` that strips to nothing, both give `localhost:3000` |
| ApiBase.StripSchemeSlashes | src/componen/Profile.jsx:15 | the host is unchanged iff it does not start with `http://` or `https://`. Otherwise the result is the rest of the host after `http:` or `https:` and every slash that follows it, so it never starts with a slash |
| ApiBase.StripSlashesShape | src/componen/Profile.jsx:15 | for a host `c + tail` with `c` being `http:` or `https:`, the result is `tail` without its leading slashes when there are two or more of them, and the whole host otherwise |
| ApiBase.ProfileApiBaseUrl | src/componen/Profile.jsx:13-17 | the profile's origin starts with `https://` iff the page protocol is `https:`; for a host without a scheme it equals the common origin |
| ApiBase.ProfileUrlAgrees | src/componen/Profile.jsx:13-17 | with exactly `//` after the scheme, the profile's origin equals the common one |
| ApiBase.ProfileStripAgrees | src/componen/Profile.jsx:13-17 | with exactly `//` after the scheme, the profile's rule and the common rule leave the same host |
| ApiBase.ProfileStripExtraSlash | src/componen/Profile.jsx:15 | once `//` follows the scheme, every further slash is removed too |
| AuthSlice.Reduce | src/fitur/AuthSlice.js:74-140 | every case reducer preserves the session invariant: not authenticated and in error at once, not successful and in error at once, success only while authenticated, and no user while anonymous |
| AuthSlice.RunPreservesConsistency | src/fitur/AuthSlice.js:86-140 | any sequence of actions from a consistent session ends consistent |
| AuthSlice.Reachable | src/fitur/AuthSlice.js:10-17 | from `initialState`, no sequence of actions reaches `isAuthenticated && isError` or `isSuccess && isError` |
| AuthSlice.ResetsRestoreInitial | src/fitur/AuthSlice.js:74-76 | `reset`, `Logout.fulfilled` and `Logout.rejected` each leave exactly `initialState` |
| AuthSlice.ClearUserDataFrame | src/fitur/AuthSlice.js:77-81 | `clearUserData` drops the user, authentication and success, and leaves `isError`, `isLoading` and `message` as they were |
| AuthSlice.LoginPendingFrame | src/fitur/AuthSlice.js:86-91 | `Login.pending` starts loading and clears error, success and message, keeping the user and authentication |
| AuthSlice.MePendingFrame | src/fitur/AuthSlice.js:109-112 | `Me.pending` sets only `isLoading` and clears only `isError` |
| AuthSlice.LogoutPendingFrame | src/fitur/AuthSlice.js:130-132 | `Logout.pending` changes `isLoading` and nothing else |
| AuthSlice.FulfilledShape | src/fitur/AuthSlice.js:92-120 | `Login.fulfilled` and `Me.fulfilled` give the same state: the payload as user, authenticated, successful, not loading, no error, empty message |
| AuthSlice.RejectedShape | src/fitur/AuthSlice.js:100-128 | `Login.rejected` and `Me.rejected` give the same state: no user, not authenticated, in error, not loading, the payload as message |
| AuthSlice.UnrelatedIgnored | src/fitur/AuthSlice.js:70-142 | an action this slice does not handle leaves the session unchanged |
| AuthSlice.ReduceIdempotent | src/fitur/AuthSlice.js:74-140 | dispatching any action twice in a row has the effect of dispatching it once |
| AuthSlice.AuthenticatedOnlyByFulfilment | src/fitur/AuthSlice.js:86-140 | from an anonymous session, no sequence without a fulfilled `Login` or `Me` authenticates or installs a user |
| AuthSlice.LoginRejectionMessage | src/fitur/AuthSlice.js:34-38 | the rejected value is always a string. It is the first truthy of `data.msg` and `data.message` when that is a string; `data` itself when `data` is a string; and 'Terjadi kesalahan saat login' otherwise |
| AuthSlice.LoginThunk | src/fitur/AuthSlice.js:19-42 | it is fulfilled with the body iff the server accepted. Without a response it is rejected with 'Gagal terhubung ke server'. It throws exactly for a null or undefined error body, and every rejected value is a string |
| AuthSlice.MeThunk | src/fitur/AuthSlice.js:43-57 | it is fulfilled iff the request succeeds, and then with the response body. With a response whose body is an object it is rejected with the body's `msg`; a null or undefined body makes the catch block throw. Without a response it is rejected with 'Failed to fetch user data' |
| AuthSlice.LogoutThunk | src/fitur/AuthSlice.js:59-68 | it is fulfilled with null on success and rejected with 'Failed to logout' on any error |
| AuthSlice.LoginOutcome | src/fitur/AuthSlice.js:19-107 | after a login request the session is authenticated iff the server accepted, is not loading, and holds the body as user. A refused login leaves an error with a string message, or undefined when the catch block threw |
| AuthSlice.MeOutcome | src/fitur/AuthSlice.js:43-57 | after a session check the session is authenticated iff the request succeeded, with the body as user. A failed check leaves an anonymous session in error whose message is the body's `msg`, the fixed text without a response, or undefined when the catch block threw |
| AuthSlice.LogoutOutcome | src/fitur/AuthSlice.js:59-68 | a logout request ends in `initialState` whether or not the server answers |
| AuthSlice.AuthStore.constructor | src/fitur/AuthSlice.js:10-17 | the store starts in `initialState`, which is consistent |
| AuthSlice.AuthStore.AssignInitial | src/fitur/AuthSlice.js:75 | `Object.assign(state, initialState)` sets all six fields to their initial values |
| AuthSlice.AuthStore.Reset | src/fitur/AuthSlice.js:74-76 | the new state is `initialState`, as the reducer says |
| AuthSlice.AuthStore.ClearUserData | src/fitur/AuthSlice.js:77-81 | it assigns exactly user, authentication and success, as the reducer says |
| AuthSlice.AuthStore.LoginPending | src/fitur/AuthSlice.js:86-91 | it assigns loading, error, success and message and keeps user and authentication, as the reducer says |
| AuthSlice.AuthStore.LoginFulfilled | src/fitur/AuthSlice.js:92-99 | the new state is the payload as an authenticated, successful user, as the reducer says |
| AuthSlice.AuthStore.LoginRejected | src/fitur/AuthSlice.js:100-107 | the new state is anonymous and in error with the payload as message, as the reducer says |
| AuthSlice.AuthStore.MePending | src/fitur/AuthSlice.js:109-112 | it assigns loading and error only, as the reducer says |
| AuthSlice.AuthStore.MeFulfilled | src/fitur/AuthSlice.js:113-120 | the new state is the payload as an authenticated, successful user, as the reducer says |
| AuthSlice.AuthStore.MeRejected | src/fitur/AuthSlice.js:121-128 | the new state is anonymous and in error with the payload as message, as the reducer says |
| AuthSlice.AuthStore.LogoutPending | src/fitur/AuthSlice.js:130-132 | it assigns loading only, as the reducer says |
| AuthSlice.AuthStore.LogoutFulfilled | src/fitur/AuthSlice.js:133-135 | the new state is `initialState` |
| AuthSlice.AuthStore.LogoutRejected | src/fitur/AuthSlice.js:136-140 | the new state is `initialState`, even though the server refused |
| AuthSlice.AuthStore.Dispatch | src/fitur/AuthSlice.js:83-140 | routing an action to its case reducer gives the reducer's new state and keeps the session invariant |
| BookingForm.Confirmed | src/componen/landing/BookTrip/BookingForm.jsx:62-66 | the filter keeps exactly the bookings of the package, with status settlement, on the departure day, each as often as it occurs in the list |
| BookingForm.TotalBookedIsSeatsTaken | src/componen/landing/BookTrip/BookingForm.jsx:62-68 | the filter followed by the left fold equals the direct sum of party sizes over counted bookings |
| BookingForm.Remaining | src/componen/landing/BookTrip/BookingForm.jsx:62-69 | the remaining seats are the capacity minus the party sizes of the matching settled bookings, summed directly |
| BookingForm.RemainingIgnoresUncounted | src/componen/landing/BookTrip/BookingForm.jsx:62-66 | inserting a booking of another package, status or day anywhere in the list leaves the remaining seats unchanged |
| BookingForm.RemainingCountsConfirmed | src/componen/landing/BookTrip/BookingForm.jsx:62-69 | inserting a matching settled booking lowers the remaining seats by exactly its party size |
| BookingForm.RemainingAtMostCapacity | src/componen/landing/BookTrip/BookingForm.jsx:69 | with non-negative party sizes, the remaining seats never exceed the capacity |
| BookingForm.RemainingForNonNumericRoute | src/componen/landing/BookTrip/BookingForm.jsx:63 | when the route parameter parses to NaN, no booking matches and the whole capacity remains |
| BookingForm.RemainingCanBeNegative | src/componen/landing/BookTrip/BookingForm.jsx:69 | the result is not clamped: capacity 1 with one settled party of more than one person gives 1 minus the party size, below zero |
| BookingForm.SubmitCheck | src/componen/landing/BookTrip/BookingForm.jsx:88-98 | it passes iff 1 <= party <= remaining. A party below 1 gets 'Jumlah orang harus minimal 1' before capacity is looked at; a larger party gets the message naming the remaining count |
| BookingForm.SubmitDisabled | src/componen/landing/BookTrip/BookingForm.jsx:245 | the button is disabled iff a request is in flight or a party of one would fail the handler's checks |
| BookingForm.NoSeatNoRequest | src/componen/landing/BookTrip/BookingForm.jsx:245 | with fewer than one seat left, the button is disabled and the handler refuses every party size |
| BookingForm.TotalShownForTypedParty | src/componen/landing/BookTrip/BookingForm.jsx:218-236 | the total shown for what was typed is the unit price times the typed number, or the unit price alone for no number or 0. A non-zero price never shows a zero total, and a positive price and party show at least the unit price |
| BookingForm.TwoSeatsLeft | src/componen/landing/BookTrip/BookingForm.jsx:62-98 | capacity 10 with 8 settled seats leaves 2, whatever a pending booking and a booking of another package hold. A party of 3 is refused with the capacity message and a party of 2 passes |
| BookingForm.BookingFormPage.constructor | src/componen/landing/BookTrip/BookingForm.jsx:40-46 | the form starts loading, with party size 1, no errors, not submitting and 0 seats |
| BookingForm.BookingFormPage.Load | src/componen/landing/BookTrip/BookingForm.jsx:48-77 | a loaded package and booking list set the remaining seats to `Remaining` of them. Either request failing shows the load error; loading always ends |
| BookingForm.BookingFormPage.OnJumlahChange | src/componen/landing/BookTrip/BookingForm.jsx:218 | the party size becomes `parseInt(value) \|\| 1` |
| BookingForm.BookingFormPage.HandleSubmit | src/componen/landing/BookTrip/BookingForm.jsx:82-122 | a request is sent iff both checks pass, with body (parsed route id, departure day, party size). A refusal sets the check's message. An accepted request whose body is an object navigates with its `booking`, undefined when absent, and the package. A failure shows the server's message or the default; a null or undefined body throws and shows the default |
| PaymentStatus.StatusBadgeAsWritten | src/componen/landing/BookTrip/PaymentStatus.jsx:30-48 | the lookup as written gives a badge without variant or label exactly for the names the object literal inherits, and the default for every other unlisted status |
| PaymentStatus.ConstructorStatusHasNoBadge | src/componen/landing/BookTrip/PaymentStatus.jsx:45 | the status "constructor" bypasses the default and gets no variant and no label |
| PaymentStatus.StatusBadge | src/componen/landing/BookTrip/PaymentStatus.jsx:30-47 | each of the 11 listed statuses gets its table entry, and every other status gets ('secondary', 'Status Tidak Diketahui') |
| PaymentStatus.AsWrittenAgreesOffPrototype | src/componen/landing/BookTrip/PaymentStatus.jsx:45 | for every status that is not an inherited name, the code as written and the intended lookup agree |
| PaymentStatus.StatusBadgeTotal | src/componen/landing/BookTrip/PaymentStatus.jsx:30-47 | every badge has a non-empty label, and the default badge is given exactly to unlisted statuses |
| PaymentStatus.SettlementLikeSuccess | src/componen/landing/BookTrip/PaymentStatus.jsx:33-36 | settlement and success both give ('success', 'Pembayaran Berhasil'); undefined and the empty status give the default |
| PaymentStatus.Banners | src/componen/landing/BookTrip/PaymentStatus.jsx:207-235 | at most one banner shows. Paid shows iff the status is settlement or success; pending iff pending; failure iff deny, cancel, expire or failure |
| PaymentStatus.BannersAgreeWithBadge | src/componen/landing/BookTrip/PaymentStatus.jsx:207-235 | a paid banner goes with a success badge, pending with warning, failure with danger or secondary; any banner implies a listed status |
| PaymentStatus.NoBannerForOtherListed | src/componen/landing/BookTrip/PaymentStatus.jsx:207-235 | capture, refund, partial_refund and authorize show no banner, although capture's badge is a success badge |
| PaymentStatus.FormatDate | src/componen/landing/BookTrip/PaymentStatus.jsx:12-21 | the date prints '-' iff it is falsy (empty, undefined, null, 0) |
| PaymentStatus.Fetch | src/componen/landing/BookTrip/PaymentStatus.jsx:92-132 | loading always ends. Nothing is requested iff the id is falsy; otherwise the transaction path comes first and refreshing ends. A second request is made iff the transaction arrived without a truthy `boking`. The transaction changes only to a received one |
| PaymentStatus.FetchWithoutId | src/componen/landing/BookTrip/PaymentStatus.jsx:94-98 | a falsy booking id requests nothing, sets 'ID Booking tidak ditemukan', ends loading and renders that error |
| PaymentStatus.FetchWithId | src/componen/landing/BookTrip/PaymentStatus.jsx:92-132 | with an id the transaction is requested first. A second request, for the booking, is made iff the transaction arrived without a truthy `boking`. Loading and refreshing end on every path |
| PaymentStatus.FetchUsesEmbeddedBooking | src/componen/landing/BookTrip/PaymentStatus.jsx:107-114 | a transaction that carries its booking sets both from it and makes no second request |
| PaymentStatus.FetchAsksForBooking | src/componen/landing/BookTrip/PaymentStatus.jsx:115-122 | otherwise the booking is the second response's data, and both paths are requested in order |
| PaymentStatus.FetchFailure | src/componen/landing/BookTrip/PaymentStatus.jsx:126-131 | a failed transaction request keeps the old transaction and shows the server's message or 'Gagal memuat data transaksi. Silakan coba lagi nanti.' |
| PaymentStatus.Render | src/componen/landing/BookTrip/PaymentStatus.jsx:154-199 | the spinner shows iff loading. Then an error wins, then a missing transaction; the details show iff none of these holds, and the booking block shows iff the booking is truthy |
| PaymentStatus.RenderedBadgeAsWritten | src/componen/landing/BookTrip/PaymentStatus.jsx:30-48 | for every status that is not an inherited name, the badge on the details screen is the one the lookup as written gives |
| PaymentStatus.FetchEndsLoading | src/componen/landing/BookTrip/PaymentStatus.jsx:92-132 | after any fetch the page is not on the spinner |
| PaymentStatus.PaymentStatusPage.constructor | src/componen/landing/BookTrip/PaymentStatus.jsx:55-59 | the page starts loading, with nothing fetched and not refreshing |
| PaymentStatus.PaymentStatusPage.FetchData | src/componen/landing/BookTrip/PaymentStatus.jsx:92-132 | the fields it assigns step by step end as `Fetch` says, and it requests the paths `Fetch` lists |
| PaymentStatus.PaymentStatusPage.HandleRefresh | src/componen/landing/BookTrip/PaymentStatus.jsx:137-140 | it raises the refreshing flag and then fetches as `Fetch` says |
| Dashboard.WithStatus | src/componen/Dashboard.jsx:89-90 | the filter keeps exactly the bookings with the given status, each as often as it occurs in the list |
| Dashboard.WithStatusCount | src/componen/Dashboard.jsx:89-90 | the length of the filtered list is the independent count of bookings with that status |
| Dashboard.PendingBookings | src/componen/Dashboard.jsx:89 | `pendingBookings` is the number of bookings whose status is pending |
| Dashboard.CompletedBookings | src/componen/Dashboard.jsx:90 | `completedBookings` is the number of bookings whose status is settlement |
| Dashboard.TotalRevenue | src/componen/Dashboard.jsx:91-93 | the revenue is the direct sum of prices over settled bookings |
| Dashboard.CountsBounded | src/componen/Dashboard.jsx:85-90 | the pending count plus the settled count never exceeds the number of bookings |
| Dashboard.TotalRevenueIsSettledRevenue | src/componen/Dashboard.jsx:91-93 | the filter followed by the left fold equals the direct sum of prices over settled bookings |
| Dashboard.RevenueAdditive | src/componen/Dashboard.jsx:91-93 | the revenue of no bookings is 0, and the revenue of two lists joined is the sum of their revenues |
| Dashboard.RevenueIgnoresUnsettled | src/componen/Dashboard.jsx:91-93 | a booking that is not settled adds nothing, whatever its price |
| Dashboard.RevenueCountsSettled | src/componen/Dashboard.jsx:91-93 | a settled booking adds exactly its price |
| Dashboard.RevenueNonNegative | src/componen/Dashboard.jsx:91-93 | with non-negative prices the revenue is non-negative |
| Dashboard.BadgeColour | src/componen/Dashboard.jsx:267 | the badge is 'warning' iff the status is pending, and 'success' otherwise |
| Dashboard.BadgeColourDiffersFromPaymentPage | src/componen/Dashboard.jsx:405 | the dashboard shows expired and failed bookings in the success colour, where the payment page uses secondary and danger; a pending booking looks the same on both |
| Dashboard.Render | src/componen/Dashboard.jsx:73-93 | the spinner shows iff one of the three bodies has not arrived. Once all have, the page fails iff one of them has no `data`. Otherwise the statistics hold the numbers of users, bookings and packages, the counts of pending and of settled bookings, whose sum is at most the bookings' count, and the settled revenue |
| Login.LocalStorage.GetItem | src/componen/Login.jsx:39-40 | `getItem` finds a value iff the key is stored, and gives the stored value |
| Login.LocalStorage.SetItem | src/componen/Login.jsx:65-66 | `setItem` maps the key to the value and changes nothing else |
| Login.LocalStorage.RemoveItem | src/componen/Login.jsx:68-69 | `removeItem` drops the key and changes nothing else |
| Login.Remember | src/componen/Login.jsx:64-70 | with remember-me both credentials are stored, without it both keys are absent; every other key keeps its value |
| Login.Prefill | src/componen/Login.jsx:39-45 | the saved credentials are used iff both are stored and neither is empty |
| Login.RememberThenPrefill | src/componen/Login.jsx:38-70 | what a remembered login stores, the next visit prefills; after a login without remember-me nothing is prefilled |
| Login.ErrorText | src/componen/Login.jsx:72-81 | a string error is shown as it is. Otherwise its truthy `msg`, then its truthy `message`, then 'Terjadi kesalahan saat login'; the text is truthy unless the error is the empty string |
| Login.RejectionShownVerbatim | src/componen/Login.jsx:75-76 | a login the slice rejected with a value shows that value. Without a server it shows 'Gagal terhubung ke server' |
| Login.RouteForRole | src/componen/Login.jsx:105-110 | admin and superadmin go to `/dashboard`, user goes to `/userdashboard`, and any other role gives no navigation |
| Login.SessionEffect | src/componen/Login.jsx:94-135 | a consistent session gets at most one alert. The session is reset iff there is a success with a user, or an error from a manual login. A success with a user greets by name and navigates by the role of `user.data \|\| user`; nothing else navigates. An error from a manual login ends with the error alert shown by `ErrorText`, alone when there is no success; nothing happens when there is no reset |
| Login.AdminLoginGoesToDashboard | src/componen/Login.jsx:95-113 | an accepted login of an admin ends with one welcome alert, navigation to `/dashboard` and a reset |
| Login.EffectAgreesWithCatch | src/componen/Login.jsx:116-134 | for a login the slice rejected with a value, the effect shows the same single error text as the submit handler's catch block |
| Login.LoginPage.constructor | src/componen/Login.jsx:26-32 | the fields start empty, with remember-me off and no manual login |
| Login.LoginPage.PrefillEffect | src/componen/Login.jsx:38-46 | username and password are filled and remember-me is ticked exactly when `Prefill` finds saved credentials; nothing changes otherwise |
| Login.LoginPage.StoreCredentials | src/componen/Login.jsx:64-70 | the storage becomes `Remember` of the old storage |
| Login.LoginPage.HandleLogin | src/componen/Login.jsx:48-92 | empty fields warn and touch neither session nor storage. An accepted login runs pending then fulfilled and updates the storage. A refused one shows the error text, resets the session and leaves the storage alone |
| Login.LoginPage.AuthEffect | src/componen/Login.jsx:94-135 | navigation and alerts are those of `SessionEffect` on the render's values; when that resets, the session is `initialState` and the manual flag is cleared |
| BookTrip.CardButton | src/componen/landing/BookTrip/BookTrip.jsx:125-131 | the button reads 'Book Now' and is enabled iff the status is 'tersedia'; otherwise it reads 'Sold Out' and is disabled |
| BookTrip.HandleBooking | src/componen/landing/BookTrip/BookTrip.jsx:49-55 | a visitor goes to `/login` with state `{ from: '/book-trip', wisataId }`; a signed-in user goes to `/booking/<id>`. The path is `/login` iff not authenticated |
| BookTrip.OnCardClick | src/componen/landing/BookTrip/BookTrip.jsx:128 | a click navigates iff the package can be booked, and then as `HandleBooking` says |
| BookTrip.Packages | src/componen/landing/BookTrip/BookTrip.jsx:48 | a missing response or a missing list is an empty catalogue |
| BookTrip.Render | src/componen/landing/BookTrip/BookTrip.jsx:57-71 | an error wins, then the spinner while there is no response; any response without an error shows the grid, with one button per package, as `CardButton` says |
| BookTrip.MissingListIsEmptyGrid | src/componen/landing/BookTrip/BookTrip.jsx:48 | a response without `data` renders an empty grid, not an error |
| BookTrip.BookingPathNamesPackage | src/componen/landing/BookTrip/BookTrip.jsx:53 | the booking form reached from a card parses its route parameter back to the same id, so it counts exactly that package's settled bookings on the day |
| UpdateSlide.ImageCheck | src/componen/AdminModal/Slide/UpdateSlide.jsx:82-92 | a file is accepted iff it is at most 2 MB and of type jpeg, jpg or png. A size over 2 MB is reported first, whatever its type |
| UpdateSlide.ImageSizeBoundary | src/componen/AdminModal/Slide/UpdateSlide.jsx:82-85 | 2097152 bytes is accepted and 2097153 is refused with the size message, even as a gif |
| UpdateSlide.SetField | src/componen/AdminModal/Slide/UpdateSlide.jsx:72-75 | the spread replaces the named field in place or appends it when new; the order and the other fields stay |
| UpdateSlide.SetFieldReadsBack | src/componen/AdminModal/Slide/UpdateSlide.jsx:72-75 | after a change the field reads back the new value |
| UpdateSlide.SetFieldLeavesOthers | src/componen/AdminModal/Slide/UpdateSlide.jsx:72-75 | a change leaves every other field's value as it was |
| UpdateSlide.SetFieldKeepsKeysDistinct | src/componen/AdminModal/Slide/UpdateSlide.jsx:72-75 | a change never creates a second field with the same name |
| UpdateSlide.NonEmptyParts | src/componen/AdminModal/Slide/UpdateSlide.jsx:114-118 | a part is sent iff some field has that name and a value other than the empty string; there are never more parts than fields |
| UpdateSlide.BuildFormData | src/componen/AdminModal/Slide/UpdateSlide.jsx:113-122 | the loop produces the non-empty fields in order, then the image. No text part is empty, and an image part is present iff a file was chosen |
| UpdateSlide.RequestSkipsEmptyFields | src/componen/AdminModal/Slide/UpdateSlide.jsx:114-118 | an empty description is left out of the request; a filled one is sent before the order |
| UpdateSlide.UpdateErrorText | src/componen/AdminModal/Slide/UpdateSlide.jsx:143 | the message is always truthy: the server's message, then the error's own message, then 'Terjadi kesalahan saat memperbarui slide' |
| UpdateSlide.UpdateSlideForm.constructor | src/componen/AdminModal/Slide/UpdateSlide.jsx:22-33 | the form starts with empty description and order, no image, not loading, no error |
| UpdateSlide.UpdateSlideForm.HandleChange | src/componen/AdminModal/Slide/UpdateSlide.jsx:70-76 | the named field takes the new value, read back as such, and field names stay distinct |
| UpdateSlide.UpdateSlideForm.HandleImageChange | src/componen/AdminModal/Slide/UpdateSlide.jsx:78-98 | no file changes nothing. A refused file sets the check's message and stores nothing; an accepted file is stored with its preview and the error is cleared |
| UpdateSlide.UpdateSlideForm.HandleSubmit | src/componen/AdminModal/Slide/UpdateSlide.jsx:100-154 | an empty order sets 'Urutan harus diisi' and sends nothing. Otherwise the request is the non-empty fields plus the image. Status 200 closes the dialog and clears the image; a failure shows and forwards `UpdateErrorText`. Loading always ends |
| Profile.Validation | src/componen/Profile.jsx:43-53 | the form passes iff both entries are non-empty and equal. The 'harus diisi' message comes first when either is empty, then 'tidak cocok' |
| Profile.ValidationExamples | src/componen/Profile.jsx:43-53 | equal non-empty entries pass, one empty entry gets the 'harus diisi' message, and different entries get the 'tidak cocok' message |
| Profile.UpdateMessage | src/componen/Profile.jsx:60-68 | the message is always truthy. On success it is the server's message or 'Profil berhasil diperbarui.'; on failure, or a body that throws, it is the server's message or 'Gagal memperbarui profil.' |
| Profile.ProfilePage.constructor | src/componen/Profile.jsx:20-25 | the page starts with no user, empty entries, not loading and an empty message |
| Profile.ProfilePage.ValidateForm | src/componen/Profile.jsx:43-53 | the verdict is `Validation`'s; a refusal sets its message and a pass leaves the message alone |
| Profile.ProfilePage.HandleUpdate | src/componen/Profile.jsx:55-72 | nothing is sent when validation fails. Otherwise `{ password }` goes to `/updateProfile/<user.id>` and `UpdateMessage` is shown; a missing user throws before the request and shows the failure text |

## Left out

- HTTP traffic is not modelled. Each response, or each failure with or without a server response, is an input. Nothing models the backend, credentials or the SWR cache and its revalidation.
- Rendering, hooks and effect scheduling are not modelled. The order between the login catch block and the login effect, and late or overlapping responses, are left out; each handler and effect runs on the state it is given.
- Swal, snackbars and callbacks such as `onError`, `handleClose` and `refreshData` become returned values or flags.
- Locale formatting is not modelled: `toLocaleDateString`, `moment`, `Intl.NumberFormat` and `toDateString`. A date is an integer day number and a price is an integer. `Dashboard.SumHarga` adds integers where the source applies `parseFloat` to each price.
- Floating-point numbers, NaN as a number and fractions are not modelled. `parseInt`'s NaN is `None`, and a NaN route id is JSON `null` in the booking request.
- `Numbers.ParseInt` handles the decimal and `0x` inputs the front end produces. It does not model the loss of precision above 2^53.
- `getApiBaseUrl` variants that read an unset host would throw on `undefined.replace`. That throw is not modelled: the configured host is a string.
- The slide editor's effect that loads an existing slide (`src/componen/AdminModal/Slide/UpdateSlide.jsx:35-68`) is not part of this model; the form starts from its initial fields.
- `Object.keys` lists integer-like keys first. The form's only field names are `deskripsi` and `urutan`, so insertion order is used.
- The profile page's fetch of the signed-in user (`src/componen/Profile.jsx:28-41`) is not modelled. The user is a field of the page.
- `Js.Prop`: primitives and objects read as undefined for a missing own key. Properties inherited from prototypes are modelled only for the status table, where they matter.
- `Dashboard.Render`: a body's `data` is either a list or absent. A `data` that is present but is a string or an object (its `length` is then a string length or undefined, and `filter` throws) is not modelled.
- `PaymentStatus.Render`: the details screen carries the intended badge (`StatusBadge`). For an inherited name such as `constructor` the page as written draws a badge without variant or label; `PaymentStatus.RenderedBadgeAsWritten` states that the two agree for every other status.
- `PaymentStatus.StatusBadgeAsWritten`: its `None` stands for a badge with undefined variant and label. What the badge component then draws is not modelled.

## Findings

| source | as written | input that shows it | evidently intended | confidence | as-written member | corrected member |
|---|---|---|---|---|---|---|
| src/componen/landing/BookTrip/PaymentStatus.jsx:31-45 | `statusMap[status] \|\| default` indexes a plain object literal, so a status equal to an inherited name finds a truthy inherited member. The default is skipped and the badge has no variant and no label | status `"constructor"` (also `"toString"`, `"__proto__"`, `"valueOf"`, ...) | every status outside the 11 listed ones gets ('secondary', 'Status Tidak Diketahui') | low; not executed; the payment gateway is not known to send such a status | PaymentStatus.ConstructorStatusHasNoBadge | PaymentStatus.StatusBadge |
