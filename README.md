# Storefront client logic, modelled in Dafny

This project models the core client logic of a browser storefront (menu,
categories, cart) and proves properties of that model. The storefront talks
to a REST API. The model covers six pieces:

- **Cart store** (`CartStore`, cart_store.dfy). The cart is a list of line
  items keyed by `_id` and mirrored into key-value storage under
  `cart_<username>` or `cart_guest`. The operations are add (append, or add 1
  to the quantity), remove, set quantity, clear, and reload for a new user.
  The list transforms are pure functions. The store is the class
  `CartStore.Cart`, with `items` (the store cell) and `storage` (the cart
  entries of the key-value storage). The value of the `username` storage
  entry at call time is the parameter `user` of each operation.
- **Time conversions** (`DateTime`, date_time.dfy). These are pure functions:
  seconds to `HH:MM`, seconds to `hh:MM AM/PM`, and `H:M` back to seconds.
  Both round trips are proved. `Strings` (strings.dfy) supplies decimal
  `toString`, `padStart(2, '0')`, `Number` on digit strings, `split` and
  `join`.
- **Session façade** (`Session`, session.dfy). This is the class
  `Session.Auth` with the `isAuthenticated` flag, driven by
  `checkAuthStatus`, `login` and `logout`. The token store under it is
  abstract state, which `setTokens` and `removeTokens` update. The outcome of
  the refresh call is a parameter. Every call into a collaborator, from
  `getAccessToken` on, is recorded, in order.
- **Image-upload validator** (`ImageUpload`, img_handler.dfy). Three ordered
  guard checks, the single callback they lead to, and the exact size limit.
- **Request shaping** (`Api`, api_handler.dfy). This covers:
  - the `Content-Type` rule, applied in place on the caller's headers object;
  - the request URL;
  - the error message of a non-ok response;
  - the form-data and URL-encoded bodies, built by loops;
  - the body, method and path each CRUD helper picks;
  - the try/catch/finally order of `onSuccess`, `onError` and `onFinally`.

  The network itself is a parameter.
- **Token store** (`TokenStore`, auth.dfy). `getToken`, `setToken`
  and `removeToken` on the single `token` key. They are specified by pure map
  functions and implemented by the class `TokenStore.LocalStorage`.

`Common` (common.dfy) holds `Option` and `Result`.

src/routes/routes.js:3 imports `getAccessToken`, `setTokens`,
`removeTokens`, `resetInactivityTimer` and `refreshAccessToken` from
`../services/auth`, but src/services/auth.js:20-30 defines only `getToken`,
`setToken` and `removeToken`, all three on the single `token` key. The five
imported functions are therefore not part of this model: `Session.Auth`
treats them as abstract collaborators, and `TokenStore` models the three
functions auth.js does define.

## Model

| member | source | states |
|---|---|---|
| `CartStore.StoredCart` | src/stores/cartStore.js:11-15 | the cart read back from storage: the list stored under the key, or `[]` when nothing is stored; its properties are stated by `Cart.constructor`, `Cart.UpdateUser` and `ClearedCartReloadsEmpty` |
| `CartStore.HasId` | src/stores/cartStore.js:23-26 | the `items.find(i => i._id === item._id)` test: some entry has the id |
| `CartStore.Incremented` | src/stores/cartStore.js:26-31 | `items.map` adding 1 to the quantity of each entry with the id; the length is kept, and `AddExistingItem` states the effect entry by entry |
| `CartStore.WithItemAdded` | src/stores/cartStore.js:22-34 | the `addItem` transform: increment when the id is present, else append the item with quantity 1; stated by `AddNewItem`, `AddExistingItem`, `AddKeepsIdsUnique` and `AddedIds` |
| `CartStore.WithQuantity` | src/stores/cartStore.js:48-51 | the `updateQuantity` map; the length is kept, and `UpdateQuantityEffect` and `UpdateKeepsIdsUnique` state its effect |
| `CartStore.CartKey` | src/stores/cartStore.js:3-8 | every cart key starts with `cart_` (its value is `cart_<username>` for a stored non-empty username, else `cart_guest`) |
| `CartStore.CartKeyInjective` | src/stores/cartStore.js:7 | two non-empty usernames get the same cart key exactly when they are equal |
| `CartStore.GuestCartKey` | src/stores/cartStore.js:7 | with no username or an empty one, the guest cart is used; the user named `guest` shares that key |
| `CartStore.Cart.constructor` | src/stores/cartStore.js:11-18 | the initial cart is the list stored under the current key, or empty when nothing is stored; storage is untouched |
| `CartStore.AddNewItem` | src/stores/cartStore.js:32-33 | adding an absent `_id` appends exactly one entry, equal to the item with quantity 1; earlier entries stay as they were and the length grows by 1 |
| `CartStore.AddExistingItem` | src/stores/cartStore.js:26-31 | adding a present `_id` adds exactly 1 to each matching entry's quantity, in place; other fields and entries and the length are unchanged; the passed item's other fields are ignored |
| `CartStore.AddKeepsIdsUnique` | src/stores/cartStore.js:22-34 | if `_id`s were unique before `addItem`, they are unique after it |
| `CartStore.AddedIds` | src/stores/cartStore.js:22-34 | after `addItem` the cart holds exactly the earlier `_id`s plus the added one |
| `CartStore.WithoutId` | src/stores/cartStore.js:42 | no entry with the removed id remains, the result is no longer than the input, and an absent id leaves the cart unchanged |
| `CartStore.WithoutIdMembers` | src/stores/cartStore.js:42 | an entry is in the result exactly when it was in the cart and has a different id |
| `CartStore.WithoutIdAppend` | src/stores/cartStore.js:42 | removal distributes over concatenation, so the kept entries keep their relative order |
| `CartStore.WithoutIdSingle` | src/stores/cartStore.js:42 | a single entry is kept exactly when its id differs |
| `CartStore.RemoveKeepsIdsUnique` | src/stores/cartStore.js:41-42 | `removeItem` keeps `_id`s unique |
| `CartStore.UpdateQuantityEffect` | src/stores/cartStore.js:48-51 | the quantity becomes `q`, with no check of `q`, on matching entries only; ids, other fields, order and length are unchanged; an absent id changes nothing |
| `CartStore.UpdateKeepsIdsUnique` | src/stores/cartStore.js:48-51 | `updateQuantity` keeps `_id`s unique |
| `CartStore.ClearedCartReloadsEmpty` | src/stores/cartStore.js:57-67 | once `clearCart` has deleted the key, reloading for the same user gives `[]` |
| `CartStore.Cart.AddItem` | src/stores/cartStore.js:22-39 | new cart = the `addItem` transform of the old one; storage under the current key holds exactly the new cart and nothing else changes; unique ids are preserved |
| `CartStore.Cart.RemoveItem` | src/stores/cartStore.js:41-46 | new cart = the old one filtered by id; storage under the current key holds exactly the new cart; unique ids are preserved |
| `CartStore.Cart.UpdateQuantity` | src/stores/cartStore.js:48-55 | new cart = the old one with the quantity set on matches; storage under the current key holds exactly the new cart; unique ids are preserved |
| `CartStore.Cart.ClearCart` | src/stores/cartStore.js:57-61 | the cart is empty and exactly the current key is deleted from storage |
| `CartStore.Cart.UpdateUser` | src/stores/cartStore.js:64-67 | the cart is reloaded from the current user's key (empty if absent) and storage is unchanged |
| `DateTime.HourField` | src/services/dateTimeHandler.js:7 | `Math.floor(time / 3600)` over non-negative integers; `FieldsOfSeconds` states it |
| `DateTime.MinuteField` | src/services/dateTimeHandler.js:8 | `Math.floor((time - hours * 3600) / 60)`; `FieldsOfSeconds` shows it is the minute within the hour |
| `DateTime.Period` | src/services/dateTimeHandler.js:29 | `PM` from hour 12 on, otherwise `AM`; `Time12Fields` states the choice |
| `DateTime.ClockSeconds` | src/services/dateTimeHandler.js:46 | `hours * 3600 + minutes * 60`; `FieldsOfClock` recovers both fields from it |
| `DateTime.SecondsToTime24` | src/services/dateTimeHandler.js:2-16 | `secondsToTime24`; its properties are stated by `NullDefaults`, `Time24Fields`, `Time24WithinDay`, `Time24IgnoresSeconds` and both round trips |
| `DateTime.SecondsToTime12` | src/services/dateTimeHandler.js:18-39 | `secondsToTime12`; its properties are stated by `NullDefaults`, `Time12Shape`, `Time12Fields` and `SameMinuteField` |
| `DateTime.TimeToSeconds` | src/services/dateTimeHandler.js:41-47 | `timeToSeconds`; its properties are stated by `EmptyTimeIsZero`, `TimeToSecondsFields`, `TimeToSecondsPair`, `MissingMinutesIsNaN` and both round trips |
| `DateTime.NullDefaults` | src/services/dateTimeHandler.js:3-21 | null or NaN input gives `00:00` (24-hour) and `12:00 AM` (12-hour) |
| `DateTime.Time24Fields` | src/services/dateTimeHandler.js:7-15 | the 24-hour string is `Pad2(s div 3600) + ":" + Pad2((s mod 3600) div 60)`, with minutes below 60; below 86400 the hours are below 24 and the string has 5 characters |
| `DateTime.FieldsOfSeconds` | src/services/dateTimeHandler.js:7-8 | the hour field is `s div 3600` and the minute field is `(s mod 3600) div 60`, always below 60 |
| `DateTime.Time24OfClock` | src/services/dateTimeHandler.js:7-15 | seconds made of `h` hours and `m < 60` minutes are written as `Pad2(h) + ":" + Pad2(m)` |
| `DateTime.Time24WithinDay` | src/services/dateTimeHandler.js:7-15 | for `0 <= s < 86400` the result is `HH:MM`, whose two-digit fields read back as `s div 3600` (< 24) and `(s mod 3600) div 60` (< 60) |
| `DateTime.Time24IgnoresSeconds` | src/services/dateTimeHandler.js:9-15 | two inputs with the same whole minutes give the same string, because leftover seconds never matter |
| `DateTime.Hour12` | src/services/dateTimeHandler.js:28 | the 12-hour hour is in 1..12 and agrees with the 24-hour count modulo 12 (0 becomes 12) |
| `DateTime.Time12Shape` | src/services/dateTimeHandler.js:23-38 | the 12-hour string is `Pad2(Hour12(h)) + ":" + Pad2(m) + " " + Period(h)` for the same hour field `h` and minute field `m` the 24-hour string uses |
| `DateTime.Time12Fields` | src/services/dateTimeHandler.js:23-38 | the 12-hour string has 8 characters, its hour field reads back in 1..12, and its period is `PM` exactly when `s div 3600 >= 12` (otherwise `AM`) |
| `DateTime.SameMinuteField` | src/services/dateTimeHandler.js:8-25 | for hour counts below 100, both strings carry the same minute digits at positions 3..4 |
| `DateTime.ToNumber` | src/services/dateTimeHandler.js:45 | a segment converts to a number exactly when it consists of digits |
| `DateTime.EmptyTimeIsZero` | src/services/dateTimeHandler.js:42-44 | an absent or empty string gives 0 |
| `DateTime.TimeToSecondsFields` | src/services/dateTimeHandler.js:45-46 | `H:M`, whatever segments follow, gives `H*3600 + M*60` |
| `DateTime.TimeToSecondsPair` | src/services/dateTimeHandler.js:45-46 | a plain `H:M` with digit fields gives `H*3600 + M*60` |
| `DateTime.MissingMinutesIsNaN` | src/services/dateTimeHandler.js:45-46 | a non-empty string with no `:` has no minutes and gives NaN |
| `DateTime.RoundTripFromSeconds` | src/services/dateTimeHandler.js:7-46 | for every `s >= 0`, `timeToSeconds(secondsToTime24(s)) == s - s mod 60` |
| `DateTime.SecondsOfFields` | src/services/dateTimeHandler.js:7-8 | the two fields, read as `hours * 3600 + minutes * 60`, give the seconds rounded down to a whole minute |
| `DateTime.WriteTwoDigitFields` | src/services/dateTimeHandler.js:7-15 | the seconds of two-digit fields `HH` and `MM <= 59` are written back as `HH:MM` |
| `DateTime.RoundTripFromString` | src/services/dateTimeHandler.js:14-46 | `secondsToTime24(timeToSeconds("HH:MM")) == "HH:MM"` for two-digit HH and two-digit MM <= 59 |
| `Session.HasAccessToken` | src/routes/routes.js:10-11 | the `!token` test: a token is held and it is not the empty string; `Auth.CheckAuthStatus` branches on it |
| `Session.Auth.RemoveAll` | src/routes/routes.js:24 | the `removeTokens()` call of `checkAuthStatus` and `logout`: no tokens are held afterwards, the flag is untouched, and the call is recorded |
| `Session.Auth.Load` | src/routes/routes.js:6-41 | the flag starts false and the status check runs once: the flag ends true exactly when a token is held and the refresh succeeds; the calls are `getAccessToken`, then the refresh when a token is held, then the removal when the refresh fails |
| `Session.Auth.CheckAuthStatus` | src/routes/routes.js:9-27 | `getAccessToken` is always called first. No token: flag false, no refresh, tokens untouched. Token and refresh succeed: flag true, then the refresh call. Token and refresh fail: flag false, then the refresh and `removeTokens` calls, and no tokens are held. The result always equals the final flag, and afterwards "authenticated implies tokens held" holds whatever the state before |
| `Session.Auth.Login` | src/routes/routes.js:29-33 | tokens are stored with `remember` (default false) and the flag becomes true; the calls made are `setTokens` then `resetInactivityTimer`, in that order |
| `Session.Auth.Logout` | src/routes/routes.js:35-38 | tokens are removed and the flag becomes false |
| `ImageUpload.ErrorMessage` | src/services/imgHandler.js:8-20 | the three `onError` strings, verbatim, one per failed check; `UploadImage` passes the first failing check's string |
| `ImageUpload.Validate` | src/services/imgHandler.js:2-22 | only `files[0]` is examined; the checks run missing file, then type, then size, and each error is returned exactly when that check is the first to fail. Success exactly for an allowed type with size <= 5242880, and it returns the file itself |
| `ImageUpload.UploadImage` | src/services/imgHandler.js:1-31 | at most one callback fires. `onSuccess` fires exactly when it is a function and the file passes, and it receives the selected file and its object URL. `onError` fires exactly when it is a function and a check fails, with the first failing check's message |
| `ImageUpload.SizeBoundary` | src/services/imgHandler.js:4-22 | exactly 5242880 bytes is accepted; 5242881 is rejected as too large |
| `ImageUpload.ChecksInOrder` | src/services/imgHandler.js:2-22 | a bad type is reported even when the file is also too large; files after the first never matter |
| `Api.Url` | src/services/apiHandler.js:37 | the URL is the base URL, `/`, then the endpoint |
| `Api.ContentTypeOrJson` | src/services/apiHandler.js:34 | the JavaScript `or` of `contentType` and `'application/json'`: the given type unless it is absent or empty; `WithContentType` states it |
| `Api.WithContentType` | src/services/apiHandler.js:33-35 | for non-multipart requests `Content-Type` is the given type, or `application/json` when absent or empty; multipart leaves the headers as given; every other header passes through unchanged |
| `Api.ErrorMessage` | src/services/apiHandler.js:47 | the server's non-empty `message`, else `HTTP Error: <status>` |
| `Api.ErrorMessageStatus` | src/services/apiHandler.js:47 | the error message is never empty, and without a server message it is `HTTP Error: ` followed by digits that read back as the status, with no leading zero for a positive status |
| `Api.RequestOutcome` | src/services/apiHandler.js:45-50 | an ok response yields its parsed body; a non-ok response yields the error; a network failure yields its message |
| `Api.ApiRequest` | src/services/apiHandler.js:28-55 | the caller's headers object gets the `Content-Type` rule in place; the request is sent with method (default GET), URL, those headers and body (default null); the result is the request's outcome |
| `Api.CreateFormData` | src/services/apiHandler.js:58-64 | exactly one `(key, item[key])` entry per key, in key order |
| `Api.PairTexts` | src/services/apiHandler.js:72-77 | one `name=value` text per pair, in order, both parts encoded |
| `Api.CreateUrlEncodedBody` | src/services/apiHandler.js:72-78 | the body is the application/x-www-form-urlencoded serialisation of the item's pairs in key order |
| `Api.UrlEncodedPairs` | src/services/apiHandler.js:72-78 | if the encoder never writes `&` or `=`, splitting the body on `&` gives exactly one `name=value` per key, in key order, and each splits back into its encoded name and value |
| `Api.UrlEncoded` | src/services/apiHandler.js:72-78 | the `URLSearchParams` serialisation: the encoded `name=value` texts joined by `&`; `CreateUrlEncodedBody` computes it and `UrlEncodedPairs` splits it back |
| `Api.BodyFor` | src/services/apiHandler.js:96-102 | multipart gives form data of the item, `application/x-www-form-urlencoded` gives the URL-encoded text, and anything else gives JSON |
| `Api.EncodeBody` | src/services/apiHandler.js:121-128 | the body the helpers build is the selected encoding |
| `Api.TryBlock` | src/services/apiHandler.js:82-84 | the `try` block: `onSuccess(data)` is called exactly when the request succeeded and it is a function; a failed request, or an `onSuccess` that throws, passes the error on |
| `Api.CatchBlock` | src/services/apiHandler.js:85-86 | the `catch` block: `onError(error)` is called exactly when an error was caught and it is a function; only a throwing `onError` passes an error on |
| `Api.FinallyBlock` | src/services/apiHandler.js:87-88 | the `finally` block: `onFinally` is appended exactly when it is a function, and its throw replaces any pending rejection |
| `Api.RunCallbacks` | src/services/apiHandler.js:81-90 | `onFinally` runs exactly when it is a function, then exactly once and last; a throwing `onFinally` decides the rejection |
| `Api.FailedRequestCallbacks` | src/services/apiHandler.js:111-115 | a failed request calls `onError` (if a function) then `onFinally`, never `onSuccess`; the error is swallowed unless a callback throws |
| `Api.SucceededRequestCallbacks` | src/services/apiHandler.js:136-141 | a successful request calls `onSuccess(data)`, then `onError` only for an exception `onSuccess` threw, then `onFinally`; it rejects with `onFinally`'s exception, else with `onError`'s when both `onSuccess` and `onError` throw, else not at all |
| `Api.AtMostOneOfEach` | src/services/apiHandler.js:148-153 | at most three callbacks fire, and no callback is called twice |
| `Api.GetItems` | src/services/apiHandler.js:81-90 | a GET of the endpoint with a JSON `Content-Type` and no body; callbacks follow the outcome |
| `Api.CreateItem` | src/services/apiHandler.js:93-116 | a POST of the endpoint; the content type (default JSON) picks the body and the header; callbacks follow the outcome |
| `Api.UpdateItem` | src/services/apiHandler.js:119-142 | a PATCH of `endPoint/<item.id>` with the same body and header choice; callbacks follow the outcome |
| `Api.IdTextFinds` | src/services/apiHandler.js:130 | the path segment is the value of the item's `id` property |
| `Api.IdText` | src/services/apiHandler.js:130 | `${item.id}`: the value of the item's `id` property, or `undefined` when it has none; `IdTextFinds` states it |
| `Api.DeleteItem` | src/services/apiHandler.js:145-154 | a DELETE of `endPoint/<id>` with a JSON `Content-Type` and no body; callbacks follow the outcome |
| `Strings.DecimalStringValue` | src/services/dateTimeHandler.js:14-15 | the digits `toString` writes read back as the number |
| `Strings.Pad2Value` | src/services/dateTimeHandler.js:14-15 | `padStart(2, '0')` keeps the value the digits denote |
| `Strings.Pad2OfTwoDigits` | src/services/dateTimeHandler.js:14-15 | any two digit characters are exactly what `padStart` writes for the number they denote |
| `Strings.SplitJoin` | src/services/dateTimeHandler.js:45 | splitting a join on the separator gives back the parts, when no part contains it |
| `Strings.JoinSplit` | src/services/dateTimeHandler.js:45 | joining the parts of a split gives back the string |
| `Strings.DecimalString` | src/services/dateTimeHandler.js:14-15 | `toString` of a non-negative integer: at least one digit, a single digit exactly below 10, and no leading zero for a positive number; `DecimalStringValue` reads it back |
| `Strings.Pad2` | src/services/dateTimeHandler.js:14-15 | `padStart(2, '0')`: digits only, at least two, exactly two below 100; `Pad2Value` and `Pad2OfTwoDigits` relate it to the number |
| `Strings.Split` | src/services/dateTimeHandler.js:45 | `split(':')`: at least one part and no part holding the separator; `SplitJoin` and `JoinSplit` make it the inverse of `Join` |
| `TokenStore.Stored` | src/services/auth.js:25 | `setItem('token', t)` on the storage map; `GetAfterSet`, `LastWriteWins` and `OtherKeysUntouched` state its effect |
| `TokenStore.Removed` | src/services/auth.js:29 | `removeItem('token')` on the storage map; `GetAfterRemove`, `RemoveIdempotent` and `OtherKeysUntouched` state its effect |
| `TokenStore.Lookup` | src/services/auth.js:20-22 | `getToken` finds a token exactly when the `token` key is present, and returns its value |
| `TokenStore.GetAfterSet` | src/services/auth.js:20-26 | after `setToken(t)`, `getToken()` returns `t` |
| `TokenStore.GetAfterRemove` | src/services/auth.js:20-30 | after `removeToken()`, `getToken()` returns null |
| `TokenStore.LastWriteWins` | src/services/auth.js:24-26 | a second `setToken` overwrites the first |
| `TokenStore.RemoveIdempotent` | src/services/auth.js:28-30 | removing twice is the same as removing once |
| `TokenStore.OtherKeysUntouched` | src/services/auth.js:21-29 | setting and removing the token leave every other key's presence and value unchanged |
| `TokenStore.LocalStorage.GetToken` | src/services/auth.js:20-22 | returns the stored token, or null when none is stored, and changes nothing |
| `TokenStore.LocalStorage.SetToken` | src/services/auth.js:24-26 | storage becomes the old storage with `token` set; a following get returns it |
| `TokenStore.LocalStorage.RemoveToken` | src/services/auth.js:28-30 | storage becomes the old storage without `token`; a following get returns null |

## Left out

- Asynchrony is left out: each operation runs to completion at once. At module load `checkAuthStatus()` is not awaited, so `isAuthenticated` stays false until the refresh settles; the model applies the refresh outcome immediately.
- The collaborators of src/routes/routes.js are not part of this model: `getAccessToken`, `setTokens`, `removeTokens`, `resetInactivityTimer` and `refreshAccessToken`. Their calls are recorded. Of their effects, only the ones on the abstract token store are modelled: `setTokens` stores the tokens and `removeTokens` clears them. Nothing models the refresh replacing tokens, the timers, inactivity tracking or cross-tab sync.
- Network I/O, `response.json()`'s parser, `JSON.stringify`/`JSON.parse`, `FormData`, `URL.createObjectURL` and the percent-encoding inside `URLSearchParams` are parameters or uninterpreted values.
- Svelte store notifications (`subscribe`) are left out; the store cell is a plain field.
- `console.error` logging and `alert` are left out.
- The time functions are modelled only on non-negative integers. Floating-point, negative or non-number inputs, beyond the null/NaN default branches, are not. Hour counts of a day or more are not wrapped, exactly as in the source.
- DateTime.ToNumber: models `Number` only on digit strings (the empty string is 0). Segments with whitespace, signs, decimal points, exponents or hex prefixes are treated as NaN, although JavaScript converts some of them to numbers.
- CartStore.Cart: quantities are integers, so `quantity + 1` on a non-numeric quantity (string concatenation in JavaScript) is not modelled. A stored cart is the list it encodes; malformed JSON under a cart key (where `JSON.parse` throws) is not modelled.
- TokenStore.LocalStorage.SetToken: tokens are strings, so `setItem`'s coercion of non-strings (`null` stored as `"null"`) is not modelled.
- Api item values are strings. Blob values in form data and `JSON.stringify` failures (cyclic items) are left out. A parsed JSON body keeps only string-valued properties, so a non-string `message` is not modelled.
- The human-readable error strings in src/services/imgHandler.js disagree with the checks: they say "JPG and PNG", but webp is allowed, and "1MB", but the limit is 5 MiB. The model keeps the strings verbatim and enforces the coded checks.
