# HelpConnect help-request domain, modelled in Dafny

HelpConnect is a mutual-aid web application: people post help requests, browse a live feed of them, and change the status or urgency of their own requests. This project models the decision logic in its client components, API route and route guard:

- **Payload values and coercions** (`Json`): untyped realtime payloads, and the two JavaScript coercions the code relies on: truthiness and `String(x)`.
- **The feed** (`HelpFeed`): the structural validator that turns a payload into a `HelpRequest` and the list updaters run on INSERT, UPDATE and DELETE events and on a card's local update. It also holds the status filter and the `Feed` component class, which stores the list, the selected filter and the feed-level error.
- **The card and its controls** (`RequestCard`, `UrgencyLevel`, `RequestStatus`): where locations are shown, which buttons appear, and the owner-gated writes that commit locally only on success.
- **The two submission pipelines** (`NewRequestForm`, `RequestEditForm`): geocoding decisions, early exits, and the record or update they write.
- **The route guard** (`Middleware`): redirect or pass-through as a pure function.
- **Signup and password reset** (`Passwords`, `SignupForm`, `PasswordResetForm`, `SignupRoute`): ordered checks, and the endpoint's compensating delete.

Remote calls are parameters, not code:

- A store write's outcome is a `bool`.
- The geocoder is a function value `string -> Option<Coord>`.
- The clock is a `now` string.
- Auth-service answers are datatypes.

`Option`'s `None` stands for JavaScript's `null`. A `HelpRequest`'s `urgencyLevel` and `status` are strings, because at run time nothing stops a component from storing any string there. `IsUrgency` and `IsStatus` say which strings are legal.

## Model

| member | source | states |
|---|---|---|
| `Json.StringifyPlainWord` | components/requests/HelpFeed.tsx:63-69 | `String(v)` equals an enumeration word exactly when `v` is that string, possibly wrapped in one-element arrays. Everything else is ruled out: null, undefined, booleans, numbers, objects, empty arrays and arrays of two or more elements. |
| `Json.Stringify` | components/requests/HelpFeed.tsx:63-69 | `String(v)` is empty only for a string or an array. A one-element array coerces as its element, unless that is null or undefined. |
| `HelpFeed.IsValidRequestData` | components/requests/HelpFeed.tsx:56-73 | A payload the validator accepts has every one of the twelve checked keys. |
| `HelpFeed.ValidatorAcceptsExactly` | components/requests/HelpFeed.tsx:56-73 | The validator accepts exactly when seven fields are strings (empty strings included), and `urgency_level` and `status` unwrap to legal words. In addition, `location` and `geo_location` must each be null or a string, and `location_hidden` a boolean. |
| `HelpFeed.EnumCoercion` | components/requests/HelpFeed.tsx:63-69 | The `includes(String(x))` checks on an enumeration list hold exactly when `x` unwraps to a listed word. The coerced value is then that word. |
| `HelpFeed.MissingUrgencyRejected` | components/requests/HelpFeed.tsx:63 | A payload without `urgency_level` is rejected. |
| `HelpFeed.MissingLocationRejected` | components/requests/HelpFeed.tsx:64-65 | A missing `location` or `geo_location` key is rejected. Only null or a string passes. |
| `HelpFeed.ValidateAndConvert` | components/requests/HelpFeed.tsx:85-104 | The result is absent exactly when the validator rejects. |
| `HelpFeed.ConvertCopiesFields` | components/requests/HelpFeed.tsx:90-103 | An accepted payload converts to a record with every checked field unchanged, and with urgency and status as the words they coerce to, both legal. |
| `HelpFeed.ExtraKeysIgnored` | components/requests/HelpFeed.tsx:90-103 | Keys outside the twelve checked ones do not affect the outcome: they are dropped. |
| `HelpFeed.PayloadRoundTrip` | components/requests/HelpFeed.tsx:216-217 | A typed request passes `isValidRequestData` exactly when its urgency and status are legal. It then converts back to itself. |
| `HelpFeed.ConvertIdempotent` | components/requests/HelpFeed.tsx:85-104 | Converting a converted record again gives the same record. |
| `HelpFeed.ReplaceById` | components/requests/HelpFeed.tsx:169-173 | The map-replace by id keeps the list's length. |
| `HelpFeed.ReplaceByIdAt` | components/requests/HelpFeed.tsx:169-173 | Replace-by-id keeps every position's id. Matching entries become the new record, and the others are unchanged. |
| `HelpFeed.ReplaceAbsentIsNoop` | components/requests/HelpFeed.tsx:169-173 | Replacing an id that is not listed leaves the list equal to the old one. |
| `HelpFeed.ReplaceIdempotent` | components/requests/HelpFeed.tsx:169-173 | Replacing the same record twice equals replacing it once. |
| `HelpFeed.Filter` | components/requests/HelpFeed.tsx:186-188 | The filtered list is no longer than the input. Its elements are exactly the input's elements that the predicate keeps. |
| `HelpFeed.FilterMultiset` | components/requests/HelpFeed.tsx:186-188 | Filtering keeps each kept record's multiplicity and removes every other record entirely. |
| `HelpFeed.FilterConcat` | components/requests/HelpFeed.tsx:186-188 | Filtering distributes over concatenation, so relative order is preserved. |
| `HelpFeed.FilterKeepsAll` | components/requests/HelpFeed.tsx:186-188 | A filter that keeps every element returns the list itself. |
| `HelpFeed.DeletedId` | components/requests/HelpFeed.tsx:184-185 | A DELETE carries an id exactly when its old record is an object whose `id` is a string. That id is the old record's `id` value. |
| `HelpFeed.Filtered` | components/requests/HelpFeed.tsx:199-202 | For "all" the view is the whole list. Otherwise it holds exactly the records with the selected status. |
| `HelpFeed.InsertedList` | components/requests/HelpFeed.tsx:151 | A valid INSERT grows the list by one. The records listed are the old ones plus the converted record. |
| `HelpFeed.UpdatedList` | components/requests/HelpFeed.tsx:169-173 | An UPDATE keeps the length. Each position keeps its record or holds the converted record with the same id. |
| `HelpFeed.DeletedList` | components/requests/HelpFeed.tsx:186-188 | A DELETE never grows the list. A record remains exactly when it was listed and its id differs from the deleted id, if there is one. |
| `HelpFeed.LocallyUpdatedList` | components/requests/HelpFeed.tsx:226-230 | A local update keeps the length. Each position keeps its record or holds the updated record with the same id. |
| `HelpFeed.InsertPrepends` | components/requests/HelpFeed.tsx:142-151 | A valid INSERT puts the converted record in front of the old list, which grows by one. An invalid one leaves the list unchanged. |
| `HelpFeed.InsertKeepsDuplicates` | components/requests/HelpFeed.tsx:151 | Inserting an id that is already listed keeps both copies. Ids are then no longer unique. |
| `HelpFeed.UpdateEventIdempotent` | components/requests/HelpFeed.tsx:161-174 | Applying the same UPDATE event twice gives the same list as applying it once. |
| `HelpFeed.UpdateSingleton` | components/requests/HelpFeed.tsx:161-174 | A one-record feed that receives a valid update for that record holds exactly the updated record. |
| `HelpFeed.LocalUpdateAcceptance` | components/requests/HelpFeed.tsx:216-231 | `handleRequestUpdate` replaces by id exactly when the record's urgency and status are legal. Otherwise the list is unchanged. |
| `HelpFeed.LocalUpdateIdempotent` | components/requests/HelpFeed.tsx:216-231 | Applying the same local update twice equals applying it once. |
| `HelpFeed.EchoAfterLocalUpdate` | components/requests/HelpFeed.tsx:161-231 | A realtime echo of the record a card already applied leaves the feed as the local update left it. |
| `HelpFeed.DeleteAbsentIsNoop` | components/requests/HelpFeed.tsx:183-190 | Deleting an id that is not listed is a no-op. |
| `HelpFeed.DeleteEvent` | components/requests/HelpFeed.tsx:183-190 | Without a string id, a DELETE changes nothing. With one, no record with that id remains, and every other record keeps its multiplicity. |
| `HelpFeed.FilteredKeepsOrder` | components/requests/HelpFeed.tsx:199-202 | The status view preserves the stored order: it distributes over concatenation. |
| `HelpFeed.UniqueIdsPreserved` | components/requests/HelpFeed.tsx:151-188 | Replace-by-id and remove-by-id keep ids unique. So does inserting a fresh id. |
| `HelpFeed.RemovePreservesUnique` | components/requests/HelpFeed.tsx:186-188 | Removing by id keeps ids unique. |
| `HelpFeed.Feed.constructor` | components/requests/HelpFeed.tsx:122-126 | The feed starts with the given list, filter "all" and no error. |
| `HelpFeed.Feed.ReceiveInitialRequests` | components/requests/HelpFeed.tsx:128-130 | A new `initialRequests` prop replaces the list wholesale. The filter and the error are untouched. |
| `HelpFeed.Feed.OnInsert` | components/requests/HelpFeed.tsx:142-151 | The list becomes the INSERT updater's result. An invalid payload sets the feed-level error, and nothing else changes it. |
| `HelpFeed.Feed.OnUpdate` | components/requests/HelpFeed.tsx:161-174 | The list becomes the UPDATE updater's result. An invalid record changes nothing. |
| `HelpFeed.Feed.OnDelete` | components/requests/HelpFeed.tsx:183-190 | The list becomes the DELETE updater's result. |
| `HelpFeed.Feed.HandleStatusChange` | components/requests/HelpFeed.tsx:204-214 | The filter takes the new value exactly when it is "all" or one of the four statuses. Otherwise the value is refused and the filter is unchanged. |
| `HelpFeed.Feed.ViewAll` | components/requests/HelpFeed.tsx:259-267 | "View all requests" resets the filter to "all". |
| `HelpFeed.Feed.HandleRequestUpdate` | components/requests/HelpFeed.tsx:216-231 | A record with an illegal urgency or status is refused. Otherwise it replaces every entry with its id. |
| `HelpFeed.Feed.FilteredRequests` | components/requests/HelpFeed.tsx:199-202 | A stored request is shown exactly when "all" is selected or its status is the selected one. For "all" the view is the stored list itself. |
| `HelpFeed.Feed.Render` | components/requests/HelpFeed.tsx:233-281 | A set error replaces the whole feed with the error panel. Otherwise the filtered cards are shown, or an empty notice that offers "View all" only under a status filter. |
| `Requests.Menu` | components/requests/RequestStatus.tsx:72-76 | The owner's menu lists every value in order. An entry is enabled exactly when no write is in flight and it is not the current value. |
| `Requests.MenuEnables` | components/requests/UrgencyLevel.tsx:87-91 | A value can be picked exactly when it is offered, differs from the current value, and nothing is loading. |
| `RequestCard.FormatLocation` | components/requests/RequestCard.tsx:24-32 | The location is shown exactly when it is non-empty and not hidden, and then it is shown unchanged. |
| `RequestCard.OfferHelpTargets` | components/requests/RequestCard.tsx:59-73 | "I Can Help" leads to /login exactly when no user is signed in. Otherwise it leads to `/requests/<id>`. |
| `RequestCard.IsOwner` | components/requests/RequestCard.tsx:56 | A signed-out viewer is never the owner. |
| `RequestCard.RenderCard` | components/requests/RequestCard.tsx:84-163 | A hidden location is never displayed. The status control appears only for a signed-in viewer, and the urgency control gets "" otherwise. "I Can Help" appears only for non-owners on open requests, and "Edit" only for the owner. |
| `RequestCard.Card.constructor` | components/requests/RequestCard.tsx:52-53 | The local copy is taken from the prop once, and loading starts false. |
| `RequestCard.Card.OfferHelp` | components/requests/RequestCard.tsx:59-73 | Returns the navigation target. Loading ends false whenever it was set. |
| `RequestCard.Card.HandleStatusChange` | components/requests/RequestCard.tsx:75-78 | The local copy becomes the received record, and the same record is forwarded to the feed. |
| `RequestCard.Card.HandleUrgencyChange` | components/requests/RequestCard.tsx:80-82 | The local copy becomes the received record. Nothing is forwarded. |
| `RequestCard.Card.Face` | components/requests/RequestCard.tsx:56-57 | The card never displays a hidden location, and offers "Edit" exactly to the owner. |
| `RequestCard.StatusChainAsWrittenFails` | components/requests/RequestCard.tsx:75-78 | Given no argument, the card stores `undefined` and the feed's handler throws. The status control then reports a failure. |
| `RequestCard.StatusChainReachesFeed` | components/requests/RequestCard.tsx:75-78 | Given the updated record, the card shows it. Every feed entry with that id takes the new status and timestamp, and the rest of the feed is unchanged. |
| `UrgencyLevel.UrgencyColor` | components/requests/UrgencyLevel.tsx:63-66 | The lower-cased key picks green, yellow or red. The result is gray exactly when the key is not a legal urgency. |
| `UrgencyLevel.ColorIgnoresCase` | components/requests/UrgencyLevel.tsx:63-66 | The colour depends only on the lower-cased value. |
| `UrgencyLevel.UrgencyMenu` | components/requests/UrgencyLevel.tsx:87-91 | The owner's menu offers exactly low, medium and high. The current value, and every entry while loading, is disabled. |
| `UrgencyLevel.UrgencyControl.constructor` | components/requests/UrgencyLevel.tsx:25-26 | The shown urgency starts as the request's, and loading starts false. |
| `UrgencyLevel.UrgencyControl.HandleUrgencyChange` | components/requests/UrgencyLevel.tsx:30-61 | A non-owner gets no write, no state change and no callback. An owner gets one write of the unchecked value and `now`, made while loading. On success the shown urgency changes and the callback receives the request with only urgency and `updated_at` replaced, the latter equal to the one written. On failure both stay as they were. Loading ends false. |
| `UrgencyLevel.UrgencyControl.OwnerMenu` | components/requests/UrgencyLevel.tsx:68-91 | Only the owner gets the menu. Everyone else sees the badge. |
| `RequestStatus.StatusMenu` | components/requests/RequestStatus.tsx:72-76 | The owner's menu offers all four statuses in order, with the current one disabled. |
| `RequestStatus.AnyStatusChangeOffered` | components/requests/RequestStatus.tsx:72-76 | Any status can move to any other: there is no transition rule, so completed to open is allowed. |
| `RequestStatus.StatusControl.constructor` | components/requests/RequestStatus.tsx:26-29 | The control keeps only a loading flag. The status it shows is the prop's. |
| `RequestStatus.StatusControl.HandleStatusChangeAsWritten` | components/requests/RequestStatus.tsx:31-51 | A non-owner gets no write. An owner gets one write of the status and a fresh timestamp to `request.id`. The callback runs, with no argument, exactly on success. Loading ends false. |
| `RequestStatus.StatusControl.HandleStatusChange` | components/requests/RequestStatus.tsx:31-51 | The same gate and write as written, but the callback receives the request with only status and `updated_at` replaced. |
| `RequestStatus.StatusControl.OwnerMenu` | components/requests/RequestStatus.tsx:53-76 | Only the owner gets the menu, built from the prop's status. |
| `NewRequestForm.NewRequestForm.constructor` | components/requests/NewRequestForm.tsx:39-40 | The form starts not submitting and with no geocoding error. |
| `NewRequestForm.NewRequestForm.HandleSubmit` | components/requests/NewRequestForm.tsx:42-111 | The address is looked up exactly when it is non-empty and not hidden. A failed lookup sets the geocoding error and inserts nothing. The urgency check comes after geocoding. The record carries the user's id, status "open", the form text verbatim, and a point only when geocoded. The reported success is the store's answer, and only a successful insert redirects to /dashboard. Submitting ends false. |
| `RequestEditForm.RequestEditForm.constructor` | components/requests/RequestEditForm.tsx:44-45 | The form starts not submitting and with no geocoding error. |
| `RequestEditForm.NeedsGeocode` | components/requests/RequestEditForm.tsx:74-79 | A hidden or empty address is never looked up, and neither is an unchanged address that already has a point. A visible, non-empty address is looked up whenever the request has no point. |
| `RequestEditForm.RequestEditForm.CheckAccess` | components/requests/RequestEditForm.tsx:48-62 | Anyone but the owner, including nobody, is redirected to /dashboard. |
| `RequestEditForm.RequestEditForm.HandleSubmit` | components/requests/RequestEditForm.tsx:64-147 | The address is looked up only when it is visible, non-empty, and changed or never geocoded. A failed lookup aborts with the error set. Urgency and then the stored status are checked. The update goes to the initial id. Its status is the initial one, and its point is the new one, else the old one when the text is unchanged, else null. It carries `now`. Ownership is not checked again. |
| `Middleware.Decide` | middleware.ts:15-51 | Only a signed-in visitor of /login or /signup is sent to /dashboard. When a lookup throws, exactly the /dashboard paths are redirected. |
| `Middleware.Route` | middleware.ts:53-55 | Paths outside the matcher always pass. |
| `Middleware.RedirectTargets` | middleware.ts:15-51 | The guard only redirects to /login or /dashboard. |
| `Middleware.SessionErrorRule` | middleware.ts:25-31 | A session error other than 408 or 503 redirects every path to /login. A 408 or 503 error falls through to the other rules. |
| `Middleware.DashboardNeedsSignIn` | middleware.ts:34-48 | A /dashboard path passes exactly when the lookups did not throw, user and session are both present, and there is no fatal session error. Otherwise it is redirected to /login. |
| `Middleware.SignedInSkipsLogin` | middleware.ts:39-41 | With user and session present, /login and /signup redirect to /dashboard, unless a fatal session error redirects to /login first. |
| `Middleware.OtherPathsOnlySessionRule` | middleware.ts:19-50 | Elsewhere only a fatal session error redirects. An exception passes through. |
| `Middleware.NewRequestPageOnlySessionRule` | middleware.ts:54 | "/requests/new" is guarded, but only a fatal session error redirects it. |
| `Passwords.PasswordProblem` | components/auth/SignupForm.tsx:24-34 | The checks pass exactly when the passwords match and have at least 6 characters. A mismatch is reported first, then the length. |
| `SignupForm.AfterSignUpTarget` | components/auth/SignupForm.tsx:67-72 | An empty `identities` list leads to /signup-success. Anything else, including a missing list, leads to /dashboard. |
| `SignupForm.SignupForm.constructor` | components/auth/SignupForm.tsx:14-15 | The form starts not loading and with no error. |
| `SignupForm.SignupForm.HandleSignUp` | components/auth/SignupForm.tsx:18-80 | Sign-up is called exactly when the password checks pass. The profile row uses the new user's id, the username and the full name. A failed insert is reported, and no delete is issued. The error is the first failure, or cleared. Routing happens only after a stored profile. Loading ends false. |
| `PasswordResetForm.PasswordResetForm.constructor` | components/auth/PasswordResetForm.tsx:10-12 | The form starts not loading, with no error and no message. |
| `PasswordResetForm.PasswordResetForm.CheckSession` | components/auth/PasswordResetForm.tsx:16-26 | A session-lookup error on mount sets the invalid-link error. |
| `PasswordResetForm.PasswordResetForm.HandlePasswordUpdate` | components/auth/PasswordResetForm.tsx:28-64 | `updateUser` is called exactly when both checks pass. On success the message is set and /login follows after 2000 ms. Error and message are cleared first. Loading ends false. |
| `SignupRoute.Field` | app/api/auth/signup/route.ts:12 | Destructuring a body that is a primitive other than null or undefined yields `undefined` for every field. Null and undefined are excluded: destructuring them throws. |
| `SignupRoute.MissingRequired` | app/api/auth/signup/route.ts:15 | A body that is not missing a required field is an object holding `email`, `password` and `username`. |
| `SignupRoute.AdminStore.CreateUser` | app/api/auth/signup/route.ts:22-29 | The created user is fresh, has its email confirmed, and carries the full name. |
| `SignupRoute.AdminStore.InsertProfile` | app/api/auth/signup/route.ts:45-51 | The row is stored exactly when the insert reports no error. |
| `SignupRoute.AdminStore.DeleteUser` | app/api/auth/signup/route.ts:57 | The user is removed, and nothing else changes. |
| `SignupRoute.Post` | app/api/auth/signup/route.ts:10-73 | A missing email, password or username returns 400 before anything is created. A rejected creation returns 400 with the store's message. No user returns 500 "Failed to create user", and a throw returns 500 with its message. A failed profile insert deletes the new user and returns 500 with the insert's error. Only full success returns 200 with the user. No path leaves a new user without a profile. |

## Left out

- The realtime channel's subscribe and remove calls, the interleaving of asynchronous callbacks, and React's batching of state updates. Each handler is modelled as one atomic step.
- The geocoder itself, an HTTP lookup with `parseFloat`. It is a function parameter, and latitude and longitude are kept as the text they print as.
- `Json.Value` numbers are integers. `String()` of fractional numbers, and JavaScript's `NaN` and `Infinity`, are not modelled.
- Json.IntToString: writes every integer in plain decimal digits, whereas JavaScript's `String()` switches to exponent notation once the magnitude reaches 1e21.
- UrgencyLevel.UrgencyColor: `toLowerCase` is modelled on ASCII letters only. The object's inherited keys (`constructor`, `__proto__`) are treated like unknown keys, and yield gray.
- Passwords.PasswordProblem: length is counted in Unicode code points, whereas JavaScript counts UTF-16 code units. Strings outside the Basic Multilingual Plane can differ.
- UrgencyLevel.UrgencyControl.HandleUrgencyChange: the `request` prop is fixed for the control's lifetime. A new prop from the card is not modelled, and neither is the `isLoading` state during the write beyond the ghost `loadingAtWrite`.
- Labels, colours of the status badge, toasts, console logging and `router.refresh()`. They are presentation or side effects with no decision in them. Navigation targets are recorded where a property needs them.
- The card's "Posted by" name, which reads a joined `user` field that the feed's validator drops.
- The delays before the forms' redirect to /dashboard. Only the password reset's 2000 ms delay is recorded.
- SignupRoute.Post: the messages of thrown exceptions are a parameter. A `deleteUser` that itself fails is not modelled.
- `config.matcher`: `/dashboard/:path*` is read as "/dashboard" or any path below it. Next.js path normalisation is not modelled.
- The signup form's OAuth buttons, the login and reset-request forms, the OAuth callback route, and the data-access wrappers. They are calls into the auth service with no decision logic of their own.

## Behaviour worth knowing

- The validator accepts empty strings for every string field. It coerces enumerated fields with `String()`, so `["low"]` passes as urgency "low".
- The feed does not de-duplicate: an INSERT for an id already listed adds a second entry (`InsertKeepsDuplicates`).
- The first invalid INSERT sets an error that no handler clears. From then on the feed shows only the error.
- The edit form keeps the stored `geo_location` when "hide location" is ticked and the text is unchanged. No lookup happens, and the old point is written back. The new-request form stores null for a hidden location.

## Findings

| source | as written | input that shows it | evidently intended | confidence | as-written member | corrected member |
|---|---|---|---|---|---|---|
| components/requests/RequestStatus.tsx:44 | `onStatusChange?.()` passes no record. RequestCard.tsx:75-78 stores its argument as the card's request and forwards it to the feed, whose validator then reads `id` off `undefined` and throws. | An owner picks a new status and the store write succeeds. | The callback receives the request with the new status and `updated_at`, as UrgencyLevel.tsx:44-52 does for urgency. The card and the feed then show the new status. | medium, not executed | `RequestStatus.StatusControl.HandleStatusChangeAsWritten`, `RequestCard.StatusChainAsWrittenFails` | `RequestStatus.StatusControl.HandleStatusChange`, `RequestCard.StatusChainReachesFeed` |
