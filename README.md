# FindWarranty — a verified model of the warranty tracker's core

FindWarranty keeps purchase receipts and tells the user when each warranty runs
out. This project models its core in Dafny:

- **Warranty expiry arithmetic.** The receipts controller turns a purchase
  date and a duration label ("6 months", "1 year", "2 years", "3 years",
  "5 years", "lifetime", in any case) into an expiry date. It uses
  `java.time.LocalDate.plusMonths` and `plusYears`. Both are modelled exactly:
  the month moves, the day is clamped to the end of the target month, and a
  year outside ±999 999 999 raises an error (module `Dates`, function
  `ReceiptController.CalculateExpiry`).
- **The backend.** `Receipt` is a mutable entity with one setter per field
  (class `ReceiptModel.Receipt`). The two JPA repositories become one database
  of value rows keyed by generated ids (class `Repository.Database`). The
  receipts controller creates, updates, deletes and lists receipts. The
  authentication controller registers users and logs them in
  (`ReceiptController.ReceiptController`, `UserController.UserController`).
  Every operation returns either `Ok(body)` or a status code with a text body,
  as the source's `ResponseEntity` does.
- **The client.** The session store holds the signed-in user and mirrors it
  under the storage key `"user"` (`AuthStore.AuthStore`). The receipt store
  holds the user's list of receipts (`ReceiptStore.ReceiptStore`). Each store
  operation takes the server's answer as a parameter: `Ok(body)`,
  `NotOk(text)`, or `NetworkError(message)`. It returns the request it sent,
  or `None` when it sent none.
- **The navigation guard.** The route table gives each path a
  `requiresAuth` flag; children take the flag from their parent record. The
  guard redirects a signed-out visitor on a protected path to `/login` and
  lets everything else through (module `Router`).

Each class method is proved against a specification: a function of the old
state, or the exact new state and response. The lemmas beside it prove what
the source promises across several calls:
- memory and storage stay in agreement;
- the user is the body of the last successful sign-in, unless a logout came
  after it;
- the delete filter keeps order and removes exactly the matching ids;
- a redirect never leads to a second redirect.

Three facts about the client code shape the model:
- The client receipt store exports no update operation
  (`frontend/src/stores/receipts.js:57`); updates exist only on the server.
- `JSON.parse` throws at start-up when the stored user is malformed
  (`frontend/src/stores/auth.js:5`); there is no fallback to "signed out".
- `fetchReceipts` and `deleteReceipt` return nothing to their caller; their
  only effect is on the store's list.

## Model

| member | source | states |
|---|---|---|
| `Text.ToLower` | backend/src/main/java/com/findwarranty/backend/controller/ReceiptController.java:128 | lower-casing keeps the length of the label and lowers each character in place: ASCII capitals become the matching small letter, every other character is kept |
| `Text.ToLowerIdempotent` | backend/src/main/java/com/findwarranty/backend/controller/ReceiptController.java:128 | lower-casing an already lower-cased label changes nothing |
| `Text.IntToString` | backend/src/main/java/com/findwarranty/backend/controller/ReceiptController.java:122 | the canonical decimal rendering of a long: a minus sign exactly for negative numbers, then digits with no leading zero, reading back as the same number |
| `Text.NatToString` | backend/src/main/java/com/findwarranty/backend/controller/ReceiptController.java:122 | the digits of a non-negative number: non-empty, all decimal digits, no leading zero |
| `Text.NatToStringValue` | backend/src/main/java/com/findwarranty/backend/controller/ReceiptController.java:122 | reading back the digits of n gives n |
| `Dates.ErrorMessage` | backend/src/main/java/com/findwarranty/backend/controller/ReceiptController.java:122 | the DateTimeException message: the fixed "Invalid value for Year" prefix with LocalDate's year range, followed by the offending year as a numeral worth the year, with a minus sign exactly for negative years and no leading zero |
| `Dates.IsLeapYear` | backend/src/main/java/com/findwarranty/backend/controller/ReceiptController.java:130-134 | a year is leap when divisible by 4, except centuries, which are leap only when divisible by 400 |
| `Dates.IsBefore` | backend/src/main/java/com/findwarranty/backend/controller/ReceiptController.java:129-134 | for valid dates, one date is before another exactly when its proleptic month is earlier, or the month is the same and its day is earlier |
| `Dates.ValidDate` | backend/src/main/java/com/findwarranty/backend/controller/ReceiptController.java:129-134 | a date LocalDate can hold: its proleptic month lies in the supported range, its day is 1 to 31, and 29 February occurs only in leap years |
| `Dates.DaysInMonth` | backend/src/main/java/com/findwarranty/backend/controller/ReceiptController.java:129-134 | every month has 28 to 31 days; February has 29 exactly in leap years |
| `Dates.PlusMonths` | backend/src/main/java/com/findwarranty/backend/controller/ReceiptController.java:129 | succeeds exactly when the target month is within LocalDate's range; the result is a valid date exactly `months` months later; its day is the start's day, or the last day of a shorter month |
| `Dates.PlusYears` | backend/src/main/java/com/findwarranty/backend/controller/ReceiptController.java:130-134 | a successful result is a valid date in the same month; it fails only when the year leaves the supported range |
| `Dates.PlusYearsIsPlusMonths` | backend/src/main/java/com/findwarranty/backend/controller/ReceiptController.java:130-134 | adding n years equals adding 12·n months, errors included |
| `Dates.LaterMonthIsLater` | backend/src/main/java/com/findwarranty/backend/controller/ReceiptController.java:129-134 | a date in a later month is chronologically later |
| `Dates.PlusMonthsIsLater` | backend/src/main/java/com/findwarranty/backend/controller/ReceiptController.java:129 | adding a positive number of months gives a strictly later date |
| `Dates.PlusYearsIsLater` | backend/src/main/java/com/findwarranty/backend/controller/ReceiptController.java:130-134 | adding a positive number of years gives a strictly later date |
| `Dates.LeapDayPlusOneYear` | backend/src/main/java/com/findwarranty/backend/controller/ReceiptController.java:130 | 2024-02-29 plus one year is 2025-02-28 |
| `ReceiptController.CalculateExpiry` | backend/src/main/java/com/findwarranty/backend/controller/ReceiptController.java:126-137 | a null start, or a label that is not one of the six once lower-cased, gives null; any non-null expiry is a valid date strictly after the start |
| `ReceiptController.AfterMonths` | backend/src/main/java/com/findwarranty/backend/controller/ReceiptController.java:129 | start plus 6 months as an expiry, which is later than the start when it exists |
| `ReceiptController.AfterYears` | backend/src/main/java/com/findwarranty/backend/controller/ReceiptController.java:130-134 | start plus n years as an expiry, which is later than the start when it exists |
| `ReceiptController.FormError` | backend/src/main/java/com/findwarranty/backend/controller/ReceiptController.java:74-76 | the exception message behind a 500: the parse failure's own message when the date does not parse, otherwise the year-range message of the expiry computation |
| `ReceiptController.HasContent` | backend/src/main/java/com/findwarranty/backend/controller/ReceiptController.java:68 | a file is stored exactly when one was posted and it is not empty (the same test guards the update at line 114) |
| `ReceiptController.LabelMonths` | backend/src/main/java/com/findwarranty/backend/controller/ReceiptController.java:129-134 | independent table: each known label stands for a positive number of months (6, 12, 24, 36, 60, 1188) |
| `ReceiptController.ExpiryOfKnownLabel` | backend/src/main/java/com/findwarranty/backend/controller/ReceiptController.java:128-134 | a known label, in any case, gives exactly start plus its number of months from the table |
| `ReceiptController.ExpiryIgnoresCase` | backend/src/main/java/com/findwarranty/backend/controller/ReceiptController.java:128 | a label and its lower-cased form give the same expiry |
| `ReceiptController.ExpirySameUpToCase` | backend/src/main/java/com/findwarranty/backend/controller/ReceiptController.java:128 | two labels that lower-case alike give the same expiry |
| `ReceiptController.OneYearCapitalised` | backend/src/main/java/com/findwarranty/backend/model/Receipt.java:32 | the label "1 Year" gives the same expiry as "1 year" |
| `ReceiptController.LifetimeCapitalised` | backend/src/main/java/com/findwarranty/backend/model/Receipt.java:32 | the label "Lifetime" gives the same expiry as "lifetime" |
| `ReceiptController.OtherHasNoExpiry` | backend/src/main/java/com/findwarranty/backend/model/Receipt.java:32 | the label "Other" gives no expiry |
| `ReceiptController.ReceiptController.GetUserReceipts` | backend/src/main/java/com/findwarranty/backend/controller/ReceiptController.java:27-36 | 200 with exactly the stored receipts whose owner has the given id |
| `ReceiptController.ReceiptController.CreateReceipt` | backend/src/main/java/com/findwarranty/backend/controller/ReceiptController.java:38-78 | an unknown user, an unparsable date or an out-of-range expiry gives 500 "Error creating receipt: …" and stores nothing. Otherwise it stores one new receipt under a fresh id, holding the posted fields, the looked-up owner and the calculated expiry. The PDF is set only for a present, non-empty file |
| `ReceiptController.ReceiptController.DeleteReceipt` | backend/src/main/java/com/findwarranty/backend/controller/ReceiptController.java:80-84 | 200 with an empty body; the id is gone and every other receipt is kept |
| `ReceiptController.ReceiptController.UpdateReceipt` | backend/src/main/java/com/findwarranty/backend/controller/ReceiptController.java:86-124 | a missing id gives 500 "Error updating receipt: Receipt not found" and changes nothing; so does a bad date or an out-of-range expiry, with its own message. Otherwise the six fields are overwritten and the expiry recomputed. The id and owner are kept, and so is the old PDF unless a non-empty file is posted |
| `ReceiptModel.Receipt.constructor` | backend/src/main/java/com/findwarranty/backend/model/Receipt.java:41 | a new receipt has every field null |
| `ReceiptModel.Receipt.Load` | backend/src/main/java/com/findwarranty/backend/controller/ReceiptController.java:98 | a receipt read from the database holds exactly the stored row |
| `ReceiptModel.Receipt.SetId` | backend/src/main/java/com/findwarranty/backend/model/Receipt.java:47-49 | the id reads back as set; no other field changes |
| `ReceiptModel.Receipt.SetStoreName` | backend/src/main/java/com/findwarranty/backend/model/Receipt.java:55-57 | the store name reads back as set; no other field changes |
| `ReceiptModel.Receipt.SetProductName` | backend/src/main/java/com/findwarranty/backend/model/Receipt.java:63-65 | the product name reads back as set; no other field changes |
| `ReceiptModel.Receipt.SetPurchaseDate` | backend/src/main/java/com/findwarranty/backend/model/Receipt.java:71-73 | the purchase date reads back as set; no other field changes |
| `ReceiptModel.Receipt.SetPrice` | backend/src/main/java/com/findwarranty/backend/model/Receipt.java:79-81 | the price reads back as set; no other field changes |
| `ReceiptModel.Receipt.SetCategory` | backend/src/main/java/com/findwarranty/backend/model/Receipt.java:87-89 | the category reads back as set; no other field changes |
| `ReceiptModel.Receipt.SetPdfData` | backend/src/main/java/com/findwarranty/backend/model/Receipt.java:95-97 | the PDF data reads back as set; no other field changes |
| `ReceiptModel.Receipt.SetWarrantyDuration` | backend/src/main/java/com/findwarranty/backend/model/Receipt.java:103-105 | the duration reads back as set; the expiry date and every other field stay as they were |
| `ReceiptModel.Receipt.SetWarrantyExpiryDate` | backend/src/main/java/com/findwarranty/backend/model/Receipt.java:111-113 | the expiry date reads back as set; no other field changes |
| `ReceiptModel.Receipt.SetUser` | backend/src/main/java/com/findwarranty/backend/model/Receipt.java:119-121 | the owner reads back as set; no other field changes |
| `Repository.Database.FindUserById` | backend/src/main/java/com/findwarranty/backend/controller/ReceiptController.java:50-51 | the stored user with that id, or none exactly when the id is unknown |
| `Repository.Database.FindByUsername` | backend/src/main/java/com/findwarranty/backend/controller/UserController.java:23 | exactly the stored users with that username; it is non-empty exactly when the name is taken |
| `Repository.Database.FindReceiptById` | backend/src/main/java/com/findwarranty/backend/controller/ReceiptController.java:98-99 | the stored receipt with that id, or none exactly when the id is unknown |
| `Repository.Database.FindByUserId` | backend/src/main/java/com/findwarranty/backend/repository/ReceiptRepository.java:8 | exactly the stored receipts whose owner has the given id, unchanged |
| `Repository.Database.SaveUser` | backend/src/main/java/com/findwarranty/backend/controller/UserController.java:26-27 | adds exactly one user under a fresh id; receipts untouched; usernames stay unique |
| `Repository.Database.SaveReceipt` | backend/src/main/java/com/findwarranty/backend/controller/ReceiptController.java:72 | a receipt without an id gets a fresh one written back into it; the table maps the id to the entity's fields, and nothing else changes |
| `Repository.Database.DeleteById` | backend/src/main/java/com/findwarranty/backend/controller/ReceiptController.java:82 | removes that id, if present, and nothing else |
| `UserController.UserController.Register` | backend/src/main/java/com/findwarranty/backend/controller/UserController.java:21-29 | a taken username gives 400 "Username already exists" and changes nothing. Otherwise it adds exactly one user with that username and password, under a fresh id, and returns it. Usernames stay unique (Valid) |
| `UserController.UserController.Login` | backend/src/main/java/com/findwarranty/backend/controller/UserController.java:31-38 | returns the stored user if and only if one has that username and an equal password, and 401 "Invalid credentials" otherwise; it modifies nothing |
| `UserController.UserController.RegisterThenLogin` | backend/src/main/java/com/findwarranty/backend/controller/UserController.java:26-35 | after a successful register, login with the same credentials returns the registered user |
| `AuthStore.Restored` | frontend/src/stores/auth.js:5 | the session starts with the persisted user, or none when storage holds none, in agreement with storage |
| `AuthStore.Persisted` | frontend/src/stores/auth.js:5 | the persisted user is present exactly when storage holds the "user" key, and is the value stored there |
| `AuthStore.SignedIn` | frontend/src/stores/auth.js:14-22 | a 2xx response makes its body the user and the value stored under "user", and touches no other key; any failure changes nothing |
| `AuthStore.SignedOut` | frontend/src/stores/auth.js:43-46 | no user and no stored "user" key, whatever the state before; other keys kept |
| `AuthStore.SignOutIdempotent` | frontend/src/stores/auth.js:43-46 | logging out twice equals logging out once |
| `AuthStore.LastEffective` | frontend/src/stores/auth.js:14-22 | none exactly when no action in the sequence is a successful sign-in or a logout; otherwise such an action, found at a position after which no action changes the session |
| `AuthStore.RunKeepsSynced` | frontend/src/stores/auth.js:5-46 | if the user equals the stored value initially, it still does after any sequence of logins, registrations and logouts |
| `AuthStore.RunUserIsLastEffective` | frontend/src/stores/auth.js:14-46 | after any sequence, the user is the body of the last successful sign-in, unless a logout followed it; with neither, it is the initial user |
| `AuthStore.FailedSignInsChangeNothing` | frontend/src/stores/auth.js:19-22 | from any session, any number of failed sign-in attempts leave user and storage unchanged |
| `AuthStore.AuthStore.constructor` | frontend/src/stores/auth.js:5 | the store starts from the persisted user |
| `AuthStore.AuthStore.Login` | frontend/src/stores/auth.js:7-23 | posts the credentials to the login endpoint; returns true exactly on a 2xx response, and then the body is the user and is persisted; otherwise user and storage are unchanged |
| `AuthStore.AuthStore.Register` | frontend/src/stores/auth.js:25-41 | the same contract as login, posted to the registration endpoint |
| `AuthStore.AuthStore.Accept` | frontend/src/stores/auth.js:14-18 | the shared success path: user and storage set to the body exactly on a 2xx response |
| `AuthStore.AuthStore.Logout` | frontend/src/stores/auth.js:43-46 | user cleared and the "user" key removed; nothing else changes |
| `ReceiptStore.Without` | frontend/src/stores/receipts.js:50 | the filter never lengthens the list, and keeps only receipts of the list whose id differs from the deleted one |
| `ReceiptStore.WithoutMembers` | frontend/src/stores/receipts.js:50 | a receipt survives the delete filter exactly when it was in the list and has another id |
| `ReceiptStore.NoneLeft` | frontend/src/stores/receipts.js:50 | after the filter no receipt with the deleted id remains |
| `ReceiptStore.CountZero` | frontend/src/stores/receipts.js:50 | a list with no element carrying the id counts zero of them |
| `ReceiptStore.WithoutLength` | frontend/src/stores/receipts.js:50 | the length drops by exactly the number of receipts with that id |
| `ReceiptStore.WithoutAbsent` | frontend/src/stores/receipts.js:50 | deleting an id that is not in the list leaves the list as it was |
| `ReceiptStore.WithoutAppend` | frontend/src/stores/receipts.js:50 | the filter keeps the original order: it distributes over concatenation |
| `ReceiptStore.ReceiptStore.constructor` | frontend/src/stores/receipts.js:6-7 | the store starts with an empty list, bound to the session store |
| `ReceiptStore.ReceiptStore.FetchReceipts` | frontend/src/stores/receipts.js:9-19 | with no user: no request and no change. Otherwise it requests that user's receipts; a 2xx response replaces the whole list, and anything else leaves it unchanged |
| `ReceiptStore.ReceiptStore.CreateReceipt` | frontend/src/stores/receipts.js:21-42 | with no user: fails with the TypeError message and sends nothing. Otherwise it posts the form plus the user's id, converted to its decimal string as `FormData.append` does. A 2xx response appends the returned receipt and succeeds; a non-2xx response or an exception fails with its text and leaves the list unchanged |
| `ReceiptStore.ReceiptStore.DeleteReceipt` | frontend/src/stores/receipts.js:44-55 | sends the delete; a 2xx response removes every receipt with that id (see the filter lemmas), and anything else leaves the list unchanged |
| `Router.ChildLocations` | frontend/src/main.js:23-32 | each child route inherits its parent record's requiresAuth flag |
| `Router.JoinPath` | frontend/src/main.js:26-29 | an absolute child path is kept as is; a relative one is the parent's path, one separating slash, then the child's path |
| `Router.Locations` | frontend/src/main.js:19-33 | the flattened table starts with the first record's own location and holds at least one location per record (its children follow it, as `Router.RouteLocations` spells out for this table) |
| `Router.Resolve` | frontend/src/main.js:17-34 | the location found has the requested path and comes from the table; none is found only when no location has that path |
| `Router.Guard` | frontend/src/main.js:36-43 | one decision per navigation: redirect to /login if and only if the target requires auth and no user is signed in, otherwise proceed |
| `Router.DashboardPaths` | frontend/src/main.js:24-29 | the relative children receipts, create and stats of the "/" record join to /receipts, /create and /stats |
| `Router.DashboardLocations` | frontend/src/main.js:23-32 | the dashboard's children resolve to /receipts, /create and /stats, all flagged |
| `Router.RouteLocations` | frontend/src/main.js:19-33 | the flattened table, in order, with each path's flag |
| `Router.ResolveFirst` | frontend/src/main.js:19-33 | resolution returns the first location with the requested path |
| `Router.ResolvePublic` | frontend/src/main.js:20-22 | /, /login and /register resolve to their own unflagged records; "/" reaches the landing page before the dashboard |
| `Router.ResolveDashboard` | frontend/src/main.js:23-32 | /receipts, /create and /stats resolve to the dashboard's children, flagged through the parent's meta |
| `Router.ResolveReceipts` | frontend/src/main.js:27 | /receipts resolves to a flagged location |
| `Router.ResolveCreate` | frontend/src/main.js:28 | /create resolves to a flagged location |
| `Router.ResolveStats` | frontend/src/main.js:29 | /stats resolves to a flagged location |
| `Router.ResolveUnknown` | frontend/src/main.js:19-33 | any other path matches no route |
| `Router.RequiresAuth` | frontend/src/main.js:19-33 | a navigation requires auth exactly for /receipts, /create and /stats |
| `Router.Navigate` | frontend/src/main.js:36-43 | redirects exactly when no user is signed in and the path is /receipts, /create or /stats, and then to /login |
| `Router.RedirectIsFinal` | frontend/src/main.js:21 | the redirect target is not protected, so following a redirect always proceeds and cannot loop |
| `Router.SignedInNeverRedirected` | frontend/src/main.js:38-41 | with a user present, every navigation proceeds |

## Left out

- `Text.ToLower`: only ASCII letters are lower-cased. `String.toLowerCase` is locale-sensitive and also folds non-ASCII letters; the six known labels are ASCII either way.
- `LocalDate.parse` is not modelled. Its outcome is an input: `ReceiptForm.purchaseDate` holds a valid date, or the parse exception's message, which takes the 500 path.
- `BigDecimal` prices and PDF bytes are opaque values. `MultipartFile.getBytes` cannot fail in the model, so its `IOException` path to 500 is not modelled.
- The 500 path of `getUserReceipts` is not modelled; it is reached only when the database itself throws. The receipts come back as a map keyed by id, because the repository promises no order.
- Receipt getters are plain field reads in the model. `Receipt.Row()` gives them all at once, and the setters' contracts are stated through it.
- `User.java` and the database's column constraints are not part of this model. A user is an id, a username and a password. Passwords are compared as stored, in plain text, as the source does.
- `Repository.Database.SaveReceipt` and `Repository.Database.SaveUser` require what their callers guarantee: the receipt already exists or has no id, and the username is free. JPA itself demands neither.
- `deleteById` is modelled as Spring Data 3 behaves: an unknown id is silently ignored.
- Spring's own handling is not modelled: missing request parameters, JSON (de)serialisation, `@JsonIgnore` on the receipt's owner, and CORS. Response bodies are the stored values.
- HTTP, `fetch`, URLs and headers are not modelled. Each request is an abstract `Request`/`AuthRequest` value, and each answer is a parameter.
- `NetworkError` stands for any exception inside a store operation's `try` that is raised before the store's state changes: a rejected `fetch`, or a body that is not JSON.
- `AuthStore.SignedIn`: does not model `localStorage.setItem` throwing (storage full or disabled) after `user.value = data` (`frontend/src/stores/auth.js:16-17`, `34-35`). The source would then return false with the new user in memory and the old value in storage; `AuthStore.RunKeepsSynced` and `AuthStore.AuthStore.Login` assume storage writes succeed.
- `ReceiptStore.NullUserError`: the message of reading `id` from a null user is V8's (Chrome, Node). Other engines word the `TypeError` differently; only the message text would differ.
- `FormData.append` mutates the caller's form object. The model builds the posted form as a new value instead.
- `localStorage` holds parsed values. The JSON round trip is assumed faithful, and the case where `JSON.parse` throws at start-up on a malformed value is not modelled. A stored user that is a falsy JSON value (such as `false`) is not modelled either.
- Console logging, asynchronous interleaving and racing duplicate requests are not modelled. Each store operation is one atomic step.
- Vue Router's matching is reduced to the first exact path in declaration order, with children's meta merged from the parent. Case-insensitive matching, trailing slashes, path parameters and score-based ranking are not modelled. The guard's `from` argument is unused, as in the source.
- Application bootstrap (`main.js:45-50`), the view components and the service worker (`public/sw.js`) are not modelled; they hold no logic beyond wiring and a stock cache-then-network fallback.
