# Onicotech, modelled in Dafny

Onicotech is an iOS/macOS app for a nail-care studio: clients, services,
appointments, promotions, expenses and a dashboard, all kept on a REST server.
This project models the app's logic that runs on the device, one Dafny module
per Swift file:

- `APIClient` (`ApiClient`):
  - it builds each JSON request, and the bearer token goes on exactly when one is stored;
  - it classifies what comes back (204, 2xx, any other status, transport failure, a response that is not HTTP) into a value or one `APIError`;
  - it unwraps the `{data, message}` envelope by endpoint: lists default to `[]`, single entities demand `data`;
  - it serialises the multipart/form-data body of a photo upload as a byte string;
  - `requestNoContent` serves the deletes.
- `AuthenticationManager` (`AuthManager`, with `UserDefaults` in `Defaults`):
  - the session is the pair `isAuthenticated`/`user` plus one token stored under `"authToken"`;
  - `init` signs in on the mere presence of a token, and a later profile fetch either fills in the user or logs out;
  - `login`, `register`, `logout` and `saveToken`.
- The view models (`ClientViewModels`, `ServiceViewModels`, `PromotionViewModels`, `AppointmentViewModels`, `DashboardViewModels`):
  - each is a class holding a list (or the dashboard payload) and the flags `isLoading`, `errorMessage` and `showError`;
  - each method takes the outcome of its server call as a parameter and updates the list in place. The updates are: append, insert at front, replace the first match, remove every match, append then sort, and the index loop of `deleteClient(at:)`.
- The models' computed properties:
  - the Italian date and the euro amount (`Formatting`), and a service's price and duration (`ServiceModel`);
  - an appointment's status names, time range and total price (`AppointmentModel`);
  - promotion validity (`PromotionModel`) and the statistics rows (`StatisticsModel`);
  - the lenient dashboard decoder (`DashboardModel`);
  - expense categories, payment methods and photo URLs (`ExpenseModel`).
- The views' logic:
  - the client detail view: the fresh client lookup, the upcoming/past/all appointment lists and the compact row's day and month (`ClientDetailView`);
  - the appointment detail view: the lookup, status colour, date, phone cleaning, the Italian prefix and the WhatsApp reminder text (`AppointmentDetailView`);
  - the appointment form: service selection, totals, loading and the save request (`AppointmentFormView`);
  - the sign-up form (`RegisterView`).

Shared helpers model Swift library behaviour:

- `Text`: `split`, integer printing and parsing, and string order;
- `Bytes`: UTF-8;
- `ListOps`: `filter`, `removeAll`, `firstIndex`, `remove(at:)`;
- `Sorting`: `sorted(by:)`;
- `Wrappers`: `Optional` and thrown errors.

**What the code does with the session.** The app keeps a single bearer token.

- There is no refresh token and no refresh endpoint.
- Nothing intercepts a 401, nothing retries, and there is no `sessionExpired` signal.
- A 401 fails like every other status outside 200...299, with `serverError`.
- The only place an invalid token leads to a logout is the profile fetch that `init` starts.
- `uploadPhoto` does not share `request`'s status handling. A non-HTTP response is a `serverError` there, not `invalidResponse`, and a transport error is rethrown unwrapped.

The model follows the code on all of these points (`ApiClient.FailedStatusesAlike`,
`ApiClient.UnauthorizedWithoutEnvelope`, `ApiClient.UploadDepartsFromRequest`).

**How the outside world enters.** Everything the code waits for is a parameter:

- what a server call returned or threw;
- what `URLSession` delivered and what the JSON decoder made of the body;
- whether Foundation accepted a URL;
- the clock reading;
- what a `DateFormatter` read from a string;
- the order in which `Array(Set)` lists a set.

An `async` call is one sequential step.

## Model

| member | source | states |
|---|---|---|
| ApiClient.ErrorDescription | Onicotech/Networking/APIClient.swift:10-23 | a server error shows the server's own message; a network error shows "Errore di rete: " followed by the underlying error's description |
| ApiClient.JsonRequest | Onicotech/Networking/APIClient.swift:87-116 | a rejected URL throws `invalidURL`; a body that fails to encode is rethrown raw; otherwise the request goes to base URL + path with the query items. It carries the method, Content-Type `application/json`, `Authorization: Bearer <token>` exactly when a token is stored, no other header, and the encoded body |
| ApiClient.PrepareRequest | Onicotech/Networking/APIClient.swift:87-116 | setting the URL, method, headers and body one at a time yields exactly the request `JsonRequest` describes, or its error |
| ApiClient.HandleResponse | Onicotech/Networking/APIClient.swift:118-150 | success only on an HTTP 2xx; a transport failure is exactly `networkError`; a non-HTTP response is exactly `invalidResponse`. A status outside 200...299 is exactly `serverError`, with the envelope's message, "Errore sconosciuto" when the envelope has none, or "Errore del server (codice N)" when no envelope decodes. 204 gives the optional result's nil without reading the body, or else decodes `{}` and rethrows that decode's error raw. On any other 2xx a decodable body is the result and an undecodable one is exactly `decodingError` with the decoder's error |
| ApiClient.FailedStatusesAlike | Onicotech/Networking/APIClient.swift:139-144 | every failed status is handled alike, 401 included: with an error envelope the outcome does not depend on the code; without one it is `serverError("Errore del server (codice N)")` |
| ApiClient.UnauthorizedWithoutEnvelope | Onicotech/Networking/APIClient.swift:139-144 | an example of `FailedStatusesAlike`: a 401 without an error envelope is "Errore del server (codice 401)", with no refresh or retry |
| ApiClient.ServerMessageReachesUser | Onicotech/Networking/APIClient.swift:139-141 | for a failed status, an error envelope carrying a message, whatever its `data`, gives `serverError` with exactly that message, and that message is what the user is shown |
| ApiClient.EnvelopeWithoutMessage | Onicotech/Networking/APIClient.swift:139-141 | for a failed status, an error envelope without a message, whatever its `data`, gives `serverError("Errore sconosciuto")`, and that is what the user is shown |
| ApiClient.Request | Onicotech/Networking/APIClient.swift:87-151 | a request is sent exactly when it can be built; otherwise the build error is thrown; a sent request's outcome is the classification of the exchange |
| ApiClient.NoContentRequest | Onicotech/Networking/APIClient.swift:155-164 | with an accepted URL the request goes to base URL + path with the method and no header and no body; otherwise `invalidURL` |
| ApiClient.NoContentAgreesWithRequest | Onicotech/Networking/APIClient.swift:166-183 | `requestNoContent` fails exactly as `request` does on every exchange that is not an HTTP 2xx, and succeeds on every 2xx without decoding the body |
| ApiClient.RequestNoContent | Onicotech/Networking/APIClient.swift:155-183 | the request sent carries no header; the outcome is `invalidURL` for a rejected URL, else the no-content classification |
| ApiClient.ListPayload | Onicotech/Networking/APIClient.swift:188-191 | a list endpoint passes errors through and turns a missing `data` into the empty list |
| ApiClient.EntityPayload | Onicotech/Networking/APIClient.swift:194-198 | a single-entity endpoint succeeds exactly when `data` is present, throws `invalidResponse` without it, and passes errors through |
| ApiClient.ListAndEntityDifferOnlyOnAbsentData | Onicotech/Networking/APIClient.swift:188-198 | the two unwrapping rules disagree on exactly one outcome, a successful envelope without `data`: `[]` for lists, `invalidResponse` for entities |
| ApiClient.AuthorizationHeaderRule | Onicotech/Networking/APIClient.swift:109-112 | over every endpoint shown, the bearer header is sent exactly when the endpoint goes through `request` and a token is stored; the deletes and the cache invalidation never send it |
| ApiClient.LoginSendsStoredToken | Onicotech/Networking/APIClient.swift:46-49 | the login request goes through `request`, so whenever an older token is still stored it is sent along as `Bearer <token>` |
| ApiClient.BuildUploadBody | Onicotech/Networking/APIClient.swift:321-342 | the appends of `uploadPhoto` produce the multipart body: the appointmentId, type and image parts in that order, then the close-delimiter |
| ApiClient.AppendTextField | Onicotech/Networking/APIClient.swift:323-331 | appending a text field adds exactly one one-header part encapsulation (section 5.1.1 of RFC 2046) |
| ApiClient.AppendFileField | Onicotech/Networking/APIClient.swift:333-339 | appending the image adds exactly one two-header part encapsulation holding the bytes |
| ApiClient.TextPartLayout | Onicotech/Networking/APIClient.swift:323-331 | the piece-by-piece text of a text field is the standard part layout |
| ApiClient.FilePartLayout | Onicotech/Networking/APIClient.swift:333-339 | the piece-by-piece text of a file field is the standard part layout |
| ApiClient.ThreeParts | Onicotech/Networking/APIClient.swift:321-342 | a three-part body is the three encapsulations followed by the close-delimiter |
| ApiClient.MultipartFraming | Onicotech/Networking/APIClient.swift:321-342 | a body opens with `--boundary` CRLF and ends with `--boundary--` CRLF |
| ApiClient.ThirdContentVerbatim | Onicotech/Networking/APIClient.swift:333-339 | the third part's content sits unchanged right after its header block |
| ApiClient.SliceOfMiddle | Onicotech/Networking/APIClient.swift:333-339 | a piece placed between two others is recovered by slicing at its offset |
| ApiClient.UploadImageVerbatim | Onicotech/Networking/APIClient.swift:333-339 | the image bytes of an upload are sent verbatim |
| ApiClient.UploadRequest | Onicotech/Networking/APIClient.swift:308-342 | the upload is a POST whose Content-Type names the same boundary the body uses, carries the bearer header exactly when a token is stored, and has the multipart body |
| ApiClient.PrepareUpload | Onicotech/Networking/APIClient.swift:308-342 | the step-by-step setup of the upload request gives exactly `UploadRequest` |
| ApiClient.HandleUploadResponse | Onicotech/Networking/APIClient.swift:344-355 | success only on an HTTP 2xx; anything else that arrived is exactly a `serverError` with the envelope's message or "Upload fallito"; a transport error is rethrown unwrapped. On a 2xx, a body that fails to decode rethrows the decoder's error unwrapped, an envelope without `data` is exactly `invalidResponse`, and an envelope with `data` returns that photo |
| ApiClient.UploadDepartsFromRequest | Onicotech/Networking/APIClient.swift:344-355 | where the upload path differs from `request`: a non-HTTP response is a `serverError` instead of `invalidResponse`, and a transport error is not wrapped in `networkError` |
| Defaults.UserDefaults.constructor | Onicotech/Managers/AuthenticationManager.swift:18 | the store starts with the given entries |
| Defaults.UserDefaults.StringForKey | Onicotech/Managers/AuthenticationManager.swift:18 | a value is found exactly when the key is stored, and it is the stored value |
| Defaults.UserDefaults.Set | Onicotech/Managers/AuthenticationManager.swift:53-55 | setting a key stores the value and leaves every other key alone |
| Defaults.UserDefaults.RemoveObject | Onicotech/Managers/AuthenticationManager.swift:47-51 | removing a key forgets it and leaves every other key alone |
| AuthManager.Initial | Onicotech/Managers/AuthenticationManager.swift:16-31 | after `init` the session is authenticated exactly when a token is stored, and the user is still unknown |
| AuthManager.LoggedOut | Onicotech/Managers/AuthenticationManager.swift:47-51 | after `logout` the token is gone, the session is signed out and there is no user |
| AuthManager.AfterAuth | Onicotech/Managers/AuthenticationManager.swift:33-45 | a failed login or register changes nothing; a successful one stores the new token, sets the user and signs in |
| AuthManager.AfterProfileFetch | Onicotech/Managers/AuthenticationManager.swift:21-29 | the startup profile fetch sets the user on success and logs out on any error |
| AuthManager.LogoutIdempotent | Onicotech/Managers/AuthenticationManager.swift:47-51 | logging out twice is logging out once |
| AuthManager.OnlyTokenKeyTouched | Onicotech/Managers/AuthenticationManager.swift:47-55 | no step writes or removes any key other than "authToken" |
| AuthManager.ConsistencyKept | Onicotech/Managers/AuthenticationManager.swift:16-51 | "authenticated implies a token is stored" holds after every step that starts from it |
| AuthManager.TokenFollowsSession | Onicotech/Networking/APIClient.swift:109-112 | after a successful login every `request` carries the new token; after a logout no request carries one |
| AuthManager.AuthenticationManager.constructor | Onicotech/Managers/AuthenticationManager.swift:16-31 | `init` leaves the `Initial` session, with the profile fetch pending exactly when a token is stored |
| AuthManager.AuthenticationManager.FinishProfileFetch | Onicotech/Managers/AuthenticationManager.swift:21-29 | the pending fetch completes and the session becomes `AfterProfileFetch` of the old one |
| AuthManager.AuthenticationManager.Login | Onicotech/Managers/AuthenticationManager.swift:33-38 | the session becomes `AfterAuth` of the old one, and the call's error is rethrown |
| AuthManager.AuthenticationManager.Register | Onicotech/Managers/AuthenticationManager.swift:40-45 | the same effects as a login, with the registration outcome |
| AuthManager.AuthenticationManager.Logout | Onicotech/Managers/AuthenticationManager.swift:47-51 | the session becomes `LoggedOut` of the old one |
| AuthManager.AuthenticationManager.SaveToken | Onicotech/Managers/AuthenticationManager.swift:53-55 | the token is stored under "authToken", every other key kept |
| Bytes.EncodeChar | Onicotech/Networking/APIClient.swift:321-342 | a character encodes to one to four bytes, and to one byte exactly when it is ASCII |
| Bytes.Utf8 | Onicotech/Networking/APIClient.swift:321-342 | an encoded string has at least one byte per character |
| Bytes.Utf8Append | Onicotech/Networking/APIClient.swift:321-342 | encoding distributes over concatenation, so appending encoded pieces encodes the whole text |
| Bytes.Utf8Ascii | Onicotech/Networking/APIClient.swift:321-342 | an ASCII string encodes to one byte per character, each byte its code point |
| Text.DigitChar | Onicotech/Helpers/Formatting.swift:17 | a digit value below ten prints as a decimal digit |
| Text.DigitValue | Onicotech/Helpers/Formatting.swift:14-15 | a digit's value is below ten and prints back as that digit |
| Text.NatToString | Onicotech/Helpers/Formatting.swift:17 | a non-negative Int prints as a non-empty numeral with no leading zero |
| Text.IntToString | Onicotech/Models/Service.swift:20-22 | an Int prints as digits, with a minus sign first when negative |
| Text.DigitsValueOfNatToString | Onicotech/Helpers/Formatting.swift:17 | the printed numeral has the printed value |
| Text.DigitsValueLeadingZero | Onicotech/Helpers/Formatting.swift:14-15 | leading zeros do not change a numeral's value |
| Text.Pad2 | Onicotech/ViewModels/AppointmentViewModel.swift:17-21 | a number below 100 as exactly two digits, as the "MM" and "dd" fields of a "yyyy-MM-dd" date are written |
| Text.DigitsValueOfPad2 | Onicotech/Helpers/Formatting.swift:14-15 | two padded digits read back as the number |
| Text.ParseInt | Onicotech/Helpers/Formatting.swift:14-15 | `Int(_:)` accepts only a sign or a digit first and only values in the 64-bit range |
| Text.ParseIntOfIntToString | Onicotech/Helpers/Formatting.swift:14-17 | printing an Int and parsing it back gives the Int |
| Text.RunLength | Onicotech/Helpers/Formatting.swift:12 | the first piece ends at the first separator, or at the end when there is none |
| Text.Split | Onicotech/Helpers/Formatting.swift:12 | `split(separator:)` gives only non-empty pieces free of the separator |
| Text.SplitAtSeparator | Onicotech/Helpers/Formatting.swift:12 | a separator splits the text into two halves that split independently |
| Text.RunLengthBeforeSeparator | Onicotech/Helpers/Formatting.swift:12 | the first piece of `a` + separator + `b` is the first piece of `a` |
| Text.SplitOfPiece | Onicotech/Helpers/Formatting.swift:12 | a non-empty text without the separator is one piece |
| Text.SplitJoin | Onicotech/Helpers/Formatting.swift:12 | splitting undoes joining, for pieces `split` can produce |
| Text.SplitIgnoresExtraSeparators | Onicotech/Helpers/Formatting.swift:12 | leading, trailing and repeated separators produce no pieces |
| Text.StrLessIrreflexive | Onicotech/ViewModels/AppointmentViewModel.swift:43 | no string is before itself |
| Text.StrLessTransitive | Onicotech/ViewModels/AppointmentViewModel.swift:43 | string order is transitive |
| Text.StrLessTrichotomy | Onicotech/ViewModels/AppointmentViewModel.swift:43 | any two strings are ordered one way, the other, or equal |
| Text.StrLessAsymmetric | Onicotech/ViewModels/AppointmentViewModel.swift:43 | string order never holds both ways |
| Text.StrLessNegativeTransitive | Onicotech/ViewModels/AppointmentViewModel.swift:43 | "not before" is transitive, as `sort(by:)` requires |
| ListOps.Filter | Onicotech/ViewModels/ServiceViewModel.swift:14-16 | `filter` keeps only passing elements of the list, no more of them than there were |
| ListOps.FilterCounts | Onicotech/ViewModels/ServiceViewModel.swift:14-16 | filtering keeps every copy of a passing element and no copy of a failing one |
| ListOps.FilterCountsAll | Onicotech/ViewModels/ServiceViewModel.swift:14-16 | the same for every element at once |
| ListOps.FilterEverything | Onicotech/ViewModels/ServiceViewModel.swift:14-16 | when everything passes, the list is kept as it is |
| ListOps.FilterAppend | Onicotech/ViewModels/ServiceViewModel.swift:14-16 | filtering works piece by piece, so the kept elements stay in order |
| ListOps.RemoveAll | Onicotech/ViewModels/ClientViewModel.swift:68 | `removeAll(where:)` leaves only non-matching elements of the list |
| ListOps.RemoveAllCounts | Onicotech/ViewModels/ClientViewModel.swift:68 | every copy of a matching element goes and every copy of the others stays |
| ListOps.RemoveAllAppend | Onicotech/ViewModels/ClientViewModel.swift:68 | removal works piece by piece, so the survivors keep their order |
| ListOps.RemoveAllNothing | Onicotech/ViewModels/ClientViewModel.swift:68 | without a match nothing is removed |
| ListOps.RemoveAllTwice | Onicotech/ViewModels/ClientViewModel.swift:68 | removing by one test and then another is removing by either |
| ListOps.RemoveAllIdempotent | Onicotech/ViewModels/ClientViewModel.swift:68 | removing the matches twice is removing them once |
| ListOps.RemoveOnlyMatch | Onicotech/ViewModels/ClientViewModel.swift:68 | removing around a single match removes just it |
| ListOps.RemoveAtOnlyMatch | Onicotech/ViewModels/ClientViewModel.swift:57 | removing by position the only match is removing the matches |
| ListOps.FirstIndex | Onicotech/ViewModels/ClientViewModel.swift:40 | `firstIndex(where:)` is the first matching position, and nil exactly when nothing matches |
| ListOps.ReplaceFirst | Onicotech/ViewModels/ClientViewModel.swift:40-42 | assigning at the first match changes that element only, and nothing when there is no match |
| ListOps.ReplaceFirstKeepsLaterMatches | Onicotech/ViewModels/ClientViewModel.swift:40-42 | later matches are left as they were |
| ListOps.RemoveAt | Onicotech/ViewModels/ClientViewModel.swift:57 | `remove(at:)` drops that position and shifts the rest down |
| Sorting.NoneBeforeOfElements | Onicotech/ViewModels/AppointmentViewModel.swift:43 | if no element is before `x`, then no position is |
| Sorting.Insert | Onicotech/ViewModels/AppointmentViewModel.swift:43 | inserting into an ordered list keeps it ordered and adds exactly that element |
| Sorting.SortBy | Onicotech/ViewModels/AppointmentViewModel.swift:43 | `sort(by:)` gives an ordered permutation of the list |
| Formatting.ItalianPieces | Onicotech/Helpers/Formatting.swift:13-17 | a date is rendered only from exactly three pieces |
| Formatting.ItalianDate | Onicotech/Helpers/Formatting.swift:11-18 | the input comes back unchanged unless it splits into exactly three pieces |
| Formatting.SplitDate | Onicotech/Helpers/Formatting.swift:12 | year-month-day splits back into its three pieces |
| Formatting.ItalianDateOfPieces | Onicotech/Helpers/Formatting.swift:13-17 | three pieces render as day, month name, year, when month and day parse and the month is in 1...12 |
| Formatting.ItalianDateOfIsoDay | Onicotech/Helpers/Formatting.swift:10-18 | "YYYY-MM-DD" with a month in 1...12 renders as the unpadded day, the month's Italian name and the year verbatim ("2026-02-20" is "20 Febbraio 2026") |
| Formatting.ItalianDateRejectsMonth | Onicotech/Helpers/Formatting.swift:16 | a month outside 1...12 leaves the input unchanged |
| Formatting.ItalianDateIgnoresRepeatedHyphens | Onicotech/Helpers/Formatting.swift:12 | a doubled hyphen renders like a single one |
| Formatting.Euros | Onicotech/Helpers/Formatting.swift:24-27 | the amount starts with "€" and has at least "x.yy" after it |
| Formatting.ParseEurosOfEuros | Onicotech/Helpers/Formatting.swift:24-27 | reading the printed amount back gives the cents exactly: whole euros, a point, two-digit cents |
| Formatting.EurosInjective | Onicotech/Helpers/Formatting.swift:24-27 | different amounts print differently |
| Formatting.EurosExample | Onicotech/Helpers/Formatting.swift:23 | 1250 cents print as "€12.50" |
| ServiceModel.FormattedPriceRoundTrip | Onicotech/Models/Service.swift:11-14 | the printed price reads back as the price in cents, in the same format as `euros` |
| ServiceModel.FormattedDurationCases | Onicotech/Models/Service.swift:16-23 | below 60 it is "<d> min"; from 60 on, hours = d / 60 and minutes = d % 60 with hours*60 + minutes = d: "<h>h" when the minutes are 0, else "<h>h <m>min" with 1 <= m <= 59 |
| ServiceModel.FormattedDurationRoundTrip | Onicotech/Models/Service.swift:16-23 | every printed duration reads back as the duration in minutes |
| ServiceModel.WholeHoursRoundTrip | Onicotech/Models/Service.swift:20 | "<h>h" reads as h hours |
| ServiceModel.HoursAndMinutesRoundTrip | Onicotech/Models/Service.swift:20 | "<h>h <m>min" reads as h hours and m minutes |
| ServiceModel.MinutesRoundTrip | Onicotech/Models/Service.swift:22 | "<d> min" reads as d minutes |
| ServiceModel.NoSpaceInNumeral | Onicotech/Models/Service.swift:20 | a printed Int has no space |
| ServiceModel.ParseHoursOf | Onicotech/Models/Service.swift:20 | "<a>h" reads as 60 times a's value |
| ServiceModel.ParseMinutesOf | Onicotech/Models/Service.swift:20 | "<b>min" reads as b's value |
| ServiceModel.SplitTwoWords | Onicotech/Models/Service.swift:20 | two space-free words joined by a space split back into them |
| ServiceModel.HoursThenMinutes | Onicotech/Models/Service.swift:20 | an hours word then a minutes word read as their sum |
| ServiceModel.HoursAndMinutesWords | Onicotech/Models/Service.swift:20 | the two words joined by a space read as their sum |
| ServiceModel.NoSpaceAppended | Onicotech/Models/Service.swift:20 | appending a space-free suffix adds no space |
| ServiceModel.HoursMinutesText | Onicotech/Models/Service.swift:20 | "<a>h <b>min" is the two words joined by one space |
| ServiceModel.NumeralWords | Onicotech/Models/Service.swift:20 | the words built from two numerals are space-free and read as their values |
| ServiceModel.HoursAndMinutesOfWords | Onicotech/Models/Service.swift:20 | "<a>h <b>min" reads as the sum of what its words read as |
| AppointmentModel.StatusFromRaw | Onicotech/Models/Appointment.swift:3-6 | a raw value names only the status whose raw value it is |
| AppointmentModel.StatusRawRoundTrip | Onicotech/Models/Appointment.swift:3-6 | "scheduled", "cancelled" and "rescheduled" round-trip through `rawValue` |
| AppointmentModel.StatusPresentationsDistinct | Onicotech/Models/Appointment.swift:8-30 | display name, icon and colour each tell any two statuses apart |
| AppointmentModel.FormattedTotalPrice | Onicotech/Models/Appointment.swift:46-49 | the total reads back as the total price in cents, an absent one counting as 0 |
| AppointmentModel.FormattedTotalPriceAbsent | Onicotech/Models/Appointment.swift:47 | an absent total prints "€0.00" |
| AppointmentModel.TimeRange | Onicotech/Models/Appointment.swift:51-56 | the start time, then " - " and the end time exactly when there is one |
| AppointmentModel.StatusOnlyOnUpdate | Onicotech/Models/Appointment.swift:59-74 | an update body always carries "status", a creation body never does; otherwise their keys agree |
| PromotionModel.IsValid | Onicotech/Models/Promotion.swift:16-22 | valid exactly when active and `now` is not before the start date and not after the end date, a missing date leaving that side open |
| PromotionModel.ValidityEdges | Onicotech/Models/Promotion.swift:19-21 | an active promotion without dates is valid, and both ends of the window are included |
| PromotionModel.ValidityIsAnInterval | Onicotech/Models/Promotion.swift:16-22 | between two valid instants every instant is valid |
| StatisticsModel.IsEmpty | Onicotech/Models/Statistics.swift:11-18 | empty exactly when none of the six lists has a row, absent lists counting as empty |
| StatisticsModel.FullName | Onicotech/Models/Statistics.swift:27-29 | the first name, one space, the last name: the text before that space is the first name and the text after it the last name |
| StatisticsModel.FullNameSplits | Onicotech/Models/Statistics.swift:49-51 | names without spaces can be read back from the full name |
| StatisticsModel.MonthlyRevenueIdentity | Onicotech/Models/Statistics.swift:58 | two revenue rows have the same id exactly when they are for the same month |
| DashboardModel.DecodeIfPresent | Onicotech/Models/Dashboard.swift:19-22 | a mistyped field throws; a present value decodes to it; a missing or null field is nil |
| DashboardModel.DecodeDashboard | Onicotech/Models/Dashboard.swift:16-23 | decoding fails exactly when some field is mistyped; otherwise each absent field takes its default (`[]` or 0) and present values are copied |
| DashboardModel.DecodedAppointmentsPresent | Onicotech/Models/Dashboard.swift:19 | after a successful decode the appointment list is never nil |
| ExpenseModel.CategoryId | Onicotech/Models/Expense.swift:11 | a category's id is its raw value, which names no other category |
| ExpenseModel.CategoryPresentationsDistinct | Onicotech/Models/Expense.swift:13-33 | category display names and icons tell any two categories apart |
| ExpenseModel.PaymentId | Onicotech/Models/Expense.swift:41 | a payment method's id is its raw value, which names no other method |
| ExpenseModel.PaymentPresentationsDistinct | Onicotech/Models/Expense.swift:43-57 | payment display names and icons tell any two methods apart |
| ExpenseModel.ThumbnailUrl | Onicotech/Models/Expense.swift:65-67 | the URL is the expense-photos prefix under the base URL, then the photo's id, then "/thumbnail", so the id can be read back from it |
| ExpenseModel.OriginalUrl | Onicotech/Models/Expense.swift:69-71 | the URL is the same prefix, then the photo's id, then "/view", so the id can be read back from it |
| ExpenseModel.PhotoUrlsDistinct | Onicotech/Models/Expense.swift:65-71 | a photo's two URLs differ, and photos with different ids get different URLs |
| ExpenseModel.NewExpense | Onicotech/Models/Expense.swift:81-85 | a new expense is not recurring, has an empty photo list and no id, notes or timestamps |
| ExpenseModel.FormattedAmount | Onicotech/Models/Expense.swift:87-89 | the amount reads back as the cents, as `euros` prints them |
| ClientViewModels.ClientViewModel.constructor | Onicotech/ViewModels/ClientViewModel.swift:6-9 | an empty list, not loading, no error |
| ClientViewModels.ClientViewModel.LoadClients | Onicotech/ViewModels/ClientViewModel.swift:13-23 | the error is cleared first; success replaces the list; failure keeps it and shows the error; loading ends either way |
| ClientViewModels.ClientViewModel.Fail | Onicotech/ViewModels/ClientViewModel.swift:30-33 | a failure leaves the list and sets the message and `showError` |
| ClientViewModels.ClientViewModel.CreateClient | Onicotech/ViewModels/ClientViewModel.swift:25-35 | true exactly on success, with the server's client appended; on failure the list is unchanged and the error shown |
| ClientViewModels.ClientViewModel.UpdateClient | Onicotech/ViewModels/ClientViewModel.swift:37-49 | on success the first row with the id takes the server's copy, nothing else changes, and the answer is true even without such a row; failure changes no row |
| ClientViewModels.ClientViewModel.DeleteClient | Onicotech/ViewModels/ClientViewModel.swift:65-75 | on success every row with the id goes and the rest keep their order; failure changes no row |
| ClientViewModels.ClientViewModel.DeleteClientAtAsWritten | Onicotech/ViewModels/ClientViewModel.swift:51-63 | the loop as written: each offset indexes the already shortened list, a nil id is skipped, a failure does not stop the loop, and an index past the end traps |
| ClientViewModels.AsWrittenRunSnoc | Onicotech/ViewModels/ClientViewModel.swift:52-62 | one more iteration of the loop is one more step |
| ClientViewModels.TrappedRunStops | Onicotech/ViewModels/ClientViewModel.swift:54 | after a trap nothing else happens |
| ClientViewModels.AsWrittenDeletesUnselectedRow | Onicotech/ViewModels/ClientViewModel.swift:51-63 | selecting the first two of three rows deletes the first and the third, and the second stays |
| ClientViewModels.AsWrittenTrapsOnLastRow | Onicotech/ViewModels/ClientViewModel.swift:51-63 | selecting the first and last of three rows traps after the first deletion |
| ClientViewModels.Selected | Onicotech/ViewModels/ClientViewModel.swift:52-54 | the selected rows, one per offset, picked from the list before any removal |
| ClientViewModels.IdsToDeleteStep | Onicotech/ViewModels/ClientViewModel.swift:54-55 | each selected row with an id adds one deletion request |
| ClientViewModels.ConfirmedStep | Onicotech/ViewModels/ClientViewModel.swift:56-57 | a row's id is confirmed exactly when it has one and the deletion succeeded |
| ClientViewModels.LastErrorStep | Onicotech/ViewModels/ClientViewModel.swift:58-60 | a refused deletion replaces the message |
| ClientViewModels.AnyRefusedStep | Onicotech/ViewModels/ClientViewModel.swift:58-60 | the error is shown exactly when some deletion was refused |
| ClientViewModels.RemoveOneMore | Onicotech/ViewModels/ClientViewModel.swift:57 | removing one more confirmed id is removing the grown set |
| ClientViewModels.RemainingStep | Onicotech/ViewModels/ClientViewModel.swift:57 | a confirmed deletion removes every row with its id from what is left |
| ClientViewModels.RemoveNone | Onicotech/ViewModels/ClientViewModel.swift:57 | with nothing confirmed nothing is removed |
| ClientViewModels.RemoveAtUniqueId | Onicotech/ViewModels/ClientViewModel.swift:57 | for an id that occurs once, removing its position is removing the id |
| ClientViewModels.DeleteSelected | Onicotech/ViewModels/ClientViewModel.swift:51-63 | the corrected loop requests the selected ids in order, removes exactly the confirmed ones, keeps the last refusal's message and shows the error exactly when one was refused |
| ClientViewModels.CorrectedDeletesSelectedRows | Onicotech/ViewModels/ClientViewModel.swift:51-63 | on the selection where the loop as written goes wrong, the corrected one deletes exactly the two selected clients |
| ClientViewModels.ClientViewModel.DeleteClientAt | Onicotech/ViewModels/ClientViewModel.swift:51-63 | `deleteClient(at:)` as intended: the selected rows' ids are requested and exactly the confirmed ones leave the list |
| ServiceViewModels.Toggled | Onicotech/ViewModels/ServiceViewModel.swift:58-59 | the copy sent differs from the service only in a negated `active` |
| ServiceViewModels.ToggledTwice | Onicotech/ViewModels/ServiceViewModel.swift:58-59 | toggling twice gives the service back |
| ServiceViewModels.ServiceViewModel.constructor | Onicotech/ViewModels/ServiceViewModel.swift:7-10 | an empty list, not loading, no error |
| ServiceViewModels.ServiceViewModel.ActiveServices | Onicotech/ViewModels/ServiceViewModel.swift:14-16 | only active services, every copy of each active one, in list order |
| ServiceViewModels.ServiceViewModel.LoadServices | Onicotech/ViewModels/ServiceViewModel.swift:18-28 | the error is cleared first; success replaces the list; failure keeps it and shows the error; loading ends |
| ServiceViewModels.ServiceViewModel.Fail | Onicotech/ViewModels/ServiceViewModel.swift:35-39 | a failure leaves the list and sets the message and `showError` |
| ServiceViewModels.ServiceViewModel.CreateService | Onicotech/ViewModels/ServiceViewModel.swift:30-40 | true exactly on success, with the server's service appended; failure changes nothing in the list |
| ServiceViewModels.ServiceViewModel.UpdateService | Onicotech/ViewModels/ServiceViewModel.swift:42-54 | on success the first match takes the server's copy, true even with no match; failure changes no row |
| ServiceViewModels.ServiceViewModel.ToggleActive | Onicotech/ViewModels/ServiceViewModel.swift:56-61 | a service without id sends nothing and changes nothing; otherwise the toggled copy is sent and the row becomes what the server returned, not the local copy |
| ServiceViewModels.ServiceViewModel.DeleteService | Onicotech/ViewModels/ServiceViewModel.swift:63-73 | on success every row with the id goes; failure changes no row |
| PromotionViewModels.PromotionViewModel.constructor | Onicotech/ViewModels/PromotionViewModel.swift:6-9 | an empty list, not loading, no error |
| PromotionViewModels.PromotionViewModel.LoadPromotions | Onicotech/ViewModels/PromotionViewModel.swift:11-21 | the error is cleared first; success replaces the list; failure keeps it and shows the error; loading ends |
| PromotionViewModels.PromotionViewModel.Fail | Onicotech/ViewModels/PromotionViewModel.swift:30-35 | a failure leaves the list and sets the message and `showError` |
| PromotionViewModels.PromotionViewModel.CreatePromotion | Onicotech/ViewModels/PromotionViewModel.swift:23-36 | true exactly on success, with the server's promotion inserted first; loading ends either way |
| PromotionViewModels.PromotionViewModel.UpdatePromotion | Onicotech/ViewModels/PromotionViewModel.swift:38-53 | on success the first match takes the server's copy, true even with no match; loading ends either way |
| PromotionViewModels.PromotionViewModel.DeletePromotion | Onicotech/ViewModels/PromotionViewModel.swift:55-65 | on success every row with the id goes; `isLoading` is never touched |
| AppointmentViewModels.StartTimeOrder | Onicotech/ViewModels/AppointmentViewModel.swift:43 | start-time order is one `sort(by:)` accepts |
| AppointmentViewModels.ByStartTime | Onicotech/ViewModels/AppointmentViewModel.swift:43 | the comparator compares start times as strings and is a strict weak order |
| AppointmentViewModels.ServiceIds | Onicotech/ViewModels/AppointmentViewModel.swift:98 | no ids without services; otherwise every id exactly as often as the services carry it, nil ids dropped |
| AppointmentViewModels.CompactIds | Onicotech/ViewModels/AppointmentViewModel.swift:98 | an id is kept exactly when some service has it, and there are no more ids than services |
| AppointmentViewModels.CompactIdsCounts | Onicotech/ViewModels/AppointmentViewModel.swift:98 | `compactMap` keeps duplicates: each id comes out as often as the services carry it |
| AppointmentViewModels.CompactIdsOne | Onicotech/ViewModels/AppointmentViewModel.swift:98 | one service contributes its id, or nothing when it has none |
| AppointmentViewModels.CompactIdsAppend | Onicotech/ViewModels/AppointmentViewModel.swift:98 | `compactMap` works piece by piece, so the ids come out in the services' order |
| AppointmentViewModels.CancelRequest | Onicotech/ViewModels/AppointmentViewModel.swift:98-107 | the cancel request copies date, start time, client and notes, lists the services' ids and has status cancelled |
| AppointmentViewModels.AppointmentViewModel.constructor | Onicotech/ViewModels/AppointmentViewModel.swift:9-12 | an empty list, not loading, no error |
| AppointmentViewModels.AppointmentViewModel.LoadAppointments | Onicotech/ViewModels/AppointmentViewModel.swift:23-33 | the error is cleared first; success replaces the list; failure keeps it and shows the error; loading ends |
| AppointmentViewModels.AppointmentViewModel.Fail | Onicotech/ViewModels/AppointmentViewModel.swift:49-53 | a failure leaves the list and sets the message and `showError` |
| AppointmentViewModels.AppointmentViewModel.CreateAppointment | Onicotech/ViewModels/AppointmentViewModel.swift:35-54 | on success the list is a start-time-ordered permutation of the old list plus the new appointment, whose client is nil when the lookup failed; failure keeps the list |
| AppointmentViewModels.AppointmentViewModel.UpdateAppointment | Onicotech/ViewModels/AppointmentViewModel.swift:56-73 | on success the first match takes the server's copy with the old row's client kept; no match, no change, still true |
| AppointmentViewModels.AppointmentViewModel.DeleteAppointment | Onicotech/ViewModels/AppointmentViewModel.swift:75-89 | on success every row with the id goes; failure keeps the list |
| AppointmentViewModels.AppointmentViewModel.CancelAppointment | Onicotech/ViewModels/AppointmentViewModel.swift:91-111 | without the id in the list nothing is sent and the answer is false; otherwise the row's cancel request is sent as an update with the update's effects |
| DashboardViewModels.DashboardViewModel.constructor | Onicotech/ViewModels/DashboardViewModel.swift:7-10 | no payload, not loading, no error |
| DashboardViewModels.DashboardViewModel.NextAppointments | Onicotech/ViewModels/DashboardViewModel.swift:13-15 | the payload's list, or none without a payload or a list |
| DashboardViewModels.TotalClientsShown | Onicotech/ViewModels/DashboardViewModel.swift:17-19 | the client count shown is the decoded `totalClients`; it is 0 without a payload and 0 when the server omitted the field or sent null |
| DashboardViewModels.NewClientsShown | Onicotech/ViewModels/DashboardViewModel.swift:21-23 | the new-clients count shown is the decoded `newClientsThisMonth`; it is 0 without a payload and 0 when the server omitted the field or sent null |
| DashboardViewModels.DashboardViewModel.MonthlyEarnings | Onicotech/ViewModels/DashboardViewModel.swift:25-28 | the earnings in euros, reading back as the payload's cents, "€0.00" without a payload |
| DashboardViewModels.DashboardViewModel.LoadData | Onicotech/ViewModels/DashboardViewModel.swift:32-42 | the error is cleared first; success replaces the payload; failure keeps it and shows the error; loading ends |
| DashboardViewModels.DecodedPayloadShown | Onicotech/ViewModels/DashboardViewModel.swift:13-23 | a decoded payload is shown as decoded: its list and figures, the defaults standing in only for absent fields |
| ClientDetailView.FilterTitlesDistinct | Onicotech/Views/Clients/ClientDetailView.swift:3-7 | the three filter titles differ |
| ClientDetailView.ShownClient | Onicotech/Views/Clients/ClientDetailView.swift:18-24 | the first listed client with the initial client's id, else the initial client |
| ClientDetailView.DateTimeTrichotomy | Onicotech/Views/Clients/ClientDetailView.swift:43 | any two appointments are ordered by (date, start time) one way or the other, or tie |
| ClientDetailView.DateTimeTransitive | Onicotech/Views/Clients/ClientDetailView.swift:43 | the (date, start time) order is transitive |
| ClientDetailView.DateTimeAsymmetric | Onicotech/Views/Clients/ClientDetailView.swift:43 | the order never holds both ways |
| ClientDetailView.DateTimeNegativeTransitive | Onicotech/Views/Clients/ClientDetailView.swift:43 | "not before" is transitive |
| ClientDetailView.DateTimeOrders | Onicotech/Views/Clients/ClientDetailView.swift:43-47 | ascending and descending (date, start time) are both orders `sorted(by:)` accepts |
| ClientDetailView.Earlier | Onicotech/Views/Clients/ClientDetailView.swift:43 | the ascending comparator is the tuple order and a strict weak order |
| ClientDetailView.Later | Onicotech/Views/Clients/ClientDetailView.swift:47 | the descending comparator is the reversed tuple order and a strict weak order |
| ClientDetailView.UpcomingAppointments | Onicotech/Views/Clients/ClientDetailView.swift:40-43 | exactly the appointments dated today or later that are not cancelled (a nil status kept), every copy of each, soonest first |
| ClientDetailView.PastAppointments | Onicotech/Views/Clients/ClientDetailView.swift:44-47 | exactly the appointments dated before today, cancelled ones included, latest first |
| ClientDetailView.FiltersPartition | Onicotech/Views/Clients/ClientDetailView.swift:37-51 | no appointment is both upcoming and past; every listed appointment that is not cancelled is in one of them; `.all` is the list as loaded |
| ClientDetailView.DayString | Onicotech/Views/Clients/ClientDetailView.swift:288-291 | non-empty exactly when the date has three hyphen-separated pieces, and then the third piece verbatim (zero padding kept) |
| ClientDetailView.MonthString | Onicotech/Views/Clients/ClientDetailView.swift:293-298 | non-empty exactly when there are three pieces and the second parses as an integer in 1...12 (so "3", "+3" and "003" all count), and then the abbreviation of that month |
| ClientDetailView.RowDateOfIsoDay | Onicotech/Views/Clients/ClientDetailView.swift:288-298 | on "YYYY-MM-DD" the row shows the day as sent and the month's abbreviation |
| ClientDetailView.RowDateRejectsShape | Onicotech/Views/Clients/ClientDetailView.swift:288-298 | without exactly three pieces the row shows neither day nor month |
| AppointmentDetailView.ShownAppointment | Onicotech/Views/Appointments/AppointmentDetailView.swift:11-16 | the first listed appointment with the id, else the one the view was opened with |
| AppointmentDetailView.StatusColorAgrees | Onicotech/Views/Appointments/AppointmentDetailView.swift:18-25 | each status shows in the colour it names (blue, red, orange), and gray exactly when there is no status |
| AppointmentDetailView.FormattedDateIsItalianDate | Onicotech/Views/Appointments/AppointmentDetailView.swift:145-154 | the view's own date rendering equals `italianDate` on every input |
| AppointmentDetailView.DigitComponents | Onicotech/Views/Appointments/AppointmentDetailView.swift:157 | splitting at every non-digit gives at least one piece |
| AppointmentDetailView.CleanPhoneNumberKeepsDigits | Onicotech/Views/Appointments/AppointmentDetailView.swift:156-158 | cleaning keeps exactly the digits of the number, in order |
| AppointmentDetailView.CleanPhoneNumberIdempotent | Onicotech/Views/Appointments/AppointmentDetailView.swift:156-158 | a cleaned number is all digits, and cleaning it again changes nothing |
| AppointmentDetailView.WhatsAppNumber | Onicotech/Views/Appointments/AppointmentDetailView.swift:161-163 | "39" followed by the cleaned number when it has at most ten digits; otherwise the cleaned number unchanged |
| AppointmentDetailView.ServiceLines | Onicotech/Views/Appointments/AppointmentDetailView.swift:169-171 | one line per service, in order |
| AppointmentDetailView.Rendered | Onicotech/Views/Appointments/AppointmentDetailView.swift:169-171 | one rendering per item, in order |
| AppointmentDetailView.JoinedAppend | Onicotech/Views/Appointments/AppointmentDetailView.swift:169-171 | joining works piece by piece |
| AppointmentDetailView.JoinedOne | Onicotech/Views/Appointments/AppointmentDetailView.swift:169-171 | one line joins to itself |
| AppointmentDetailView.JoinedSnoc | Onicotech/Views/Appointments/AppointmentDetailView.swift:169-171 | one more line is appended at the end |
| AppointmentDetailView.ReminderWithoutServices | Onicotech/Views/Appointments/AppointmentDetailView.swift:165-174 | without services the reminder is the greeting and "A presto!" only |
| AppointmentDetailView.ReminderLine | Onicotech/Views/Appointments/AppointmentDetailView.swift:167-174 | each line of a reminder follows the lines before it and precedes those after it |
| AppointmentDetailView.ReminderListsServices | Onicotech/Views/Appointments/AppointmentDetailView.swift:165-174 | with services, the "Servizi:" heading follows the greeting and each service's line comes in order before the farewell |
| AppointmentDetailView.AppendRendered | Onicotech/Views/Appointments/AppointmentDetailView.swift:169-171 | the `+=` loop appends the rendered items in order |
| AppointmentDetailView.GreetingToFarewell | Onicotech/Views/Appointments/AppointmentDetailView.swift:167-174 | the `msg +=` steps after the greeting build exactly the reminder text: the services section only when there are services, then the farewell |
| AppointmentDetailView.ReminderMessage | Onicotech/Views/Appointments/AppointmentDetailView.swift:165-174 | the message built step by step is the reminder text of the appointment |
| AppointmentFormView.Toggled | Onicotech/Views/Appointments/AppointmentFormView.swift:84-89 | a nil id changes nothing; otherwise exactly that id flips in or out of the selection |
| AppointmentFormView.ToggledTwice | Onicotech/Views/Appointments/AppointmentFormView.swift:84-89 | tapping the same row twice restores the selection |
| AppointmentFormView.TappedIdsOnly | Onicotech/Views/Appointments/AppointmentFormView.swift:84 | after any taps every selected id was there before or belongs to a tapped service, so a nil id never enters |
| AppointmentFormView.SelectionOf | Onicotech/Views/Appointments/AppointmentFormView.swift:198-199 | an id is selected exactly when one of the appointment's services has it |
| AppointmentFormView.LockedClient | Onicotech/Views/Appointments/AppointmentFormView.swift:56-66 | the locked client is a listed client with the preselected id, and there is none exactly when nothing is preselected or no client has that id |
| AppointmentFormView.SumAppend | Onicotech/Views/Appointments/AppointmentFormView.swift:113-118 | the running sum works piece by piece |
| AppointmentFormView.TotalCons | Onicotech/Views/Appointments/AppointmentFormView.swift:113-118 | the total is the first service's share plus the rest's |
| AppointmentFormView.TotalOfNothing | Onicotech/Views/Appointments/AppointmentFormView.swift:113-118 | with nothing selected both totals are 0 |
| AppointmentFormView.TotalSelectOne | Onicotech/Views/Appointments/AppointmentFormView.swift:113-118 | selecting one more id adds the price (or duration) of every listed service with it, inactive ones included |
| AppointmentFormView.TotalAfterToggle | Onicotech/Views/Appointments/AppointmentFormView.swift:84-118 | a tap moves each total up or down by the tapped id's share |
| AppointmentFormView.NotesField | Onicotech/Views/Appointments/AppointmentFormView.swift:231 | empty notes are sent as nil, and `?? ""` gives the notes back |
| AppointmentFormView.RequestFor | Onicotech/Views/Appointments/AppointmentFormView.swift:216-244 | no request without a client; an update exactly when the appointment has an id, carrying the status; otherwise a creation without it; both carry the form's fields |
| AppointmentFormView.ValidFormSends | Onicotech/Views/Appointments/AppointmentFormView.swift:26-28 | a valid form always yields a request whose services are exactly the selected ids, each once |
| AppointmentFormView.DistinctCardinality | Onicotech/Views/Appointments/AppointmentFormView.swift:222 | a list without repeats is as long as its set |
| AppointmentFormView.AppointmentForm.constructor | Onicotech/Views/Appointments/AppointmentFormView.swift:11-22 | today's date, the current time, nothing picked, status scheduled, data still loading |
| AppointmentFormView.AppointmentForm.Rows | Onicotech/Views/Appointments/AppointmentFormView.swift:82 | the rows are active listed services |
| AppointmentFormView.AppointmentForm.TapRow | Onicotech/Views/Appointments/AppointmentFormView.swift:83-90 | tapping a row toggles its service's id and changes nothing else |
| AppointmentFormView.AppointmentForm.LoadLists | Onicotech/Views/Appointments/AppointmentFormView.swift:182-189 | the clients list is replaced when its fetch succeeds; the services list only when both fetches succeed, since a failed clients fetch discards the services result; errors are silent |
| AppointmentFormView.AppointmentForm.Fill | Onicotech/Views/Appointments/AppointmentFormView.swift:192-202 | editing fills client, service ids (when the services are present), notes (`""` for nil) and status (scheduled for nil); date and time only when they parse |
| AppointmentFormView.AppointmentForm.ApplyPreselections | Onicotech/Views/Appointments/AppointmentFormView.swift:203-211 | a preselected client and day replace the defaults |
| AppointmentFormView.AppointmentForm.LoadFormData | Onicotech/Views/Appointments/AppointmentFormView.swift:180-214 | the lists, then the edited appointment or the preselections; loading ends |
| AppointmentFormView.AppointmentForm.Save | Onicotech/Views/Appointments/AppointmentFormView.swift:216-248 | without a client nothing is sent and nothing changes; otherwise the request built from the form goes to the view model, whose list changes as that creation (sorted by start time) or update makes it; saving ends, and the form closes exactly when the call succeeded |
| RegisterView.IsValid | Onicotech/Views/Auth/RegisterView.swift:94-96 | false if a name, the email or the password is empty, if the password has fewer than 6 characters, or if it differs from the confirmation; true exactly when all pass |
| RegisterView.RegisterForm.constructor | Onicotech/Views/Auth/RegisterView.swift:7-14 | empty fields, not loading, no error |
| RegisterView.RegisterForm.Register | Onicotech/Views/Auth/RegisterView.swift:98-113 | the session changes as a registration with that outcome does; a failure shows the fixed message, success clears it; loading ends; fields are kept |

## Left out

- The network, `URLSession`, the JSON encoder and decoder, and Foundation's URL parser are not modelled. Their results are inputs: an `Exchange`, the decoded `Body`, `urlAccepted`, and the encoded body or its error.
- Concurrency is not modelled: actor isolation, `@MainActor`, `async let` in `loadFormData`, and the startup `Task`. Every `await` is one sequential step. The startup profile fetch is the separate step `FinishProfileFetch`.
- `APIClient` members whose bodies are elided in the source are not modelled, since nothing is known of them. These include `getPromotions`, `createPromotion`, the expense endpoints and `uploadExpensePhoto`. The view models take their outcomes as parameters.
- The remaining shown endpoints (profile, clients, services, appointments, dashboard, stats, cache, photos) are modelled only as an `Endpoint` value: path, method, unwrapping rule and query. What they decode is an input.
- `CalendarManager` (EventKit) is not modelled. `syncAppointment` and `deleteEvent` leave the list alone.
- Biometrics (`LAContext`) is not modelled. This includes `loginWithBiometrics`, which signs in without touching the token.
- Kingfisher, image pickers and every view's layout are not modelled. The views appear only through the logic they compute.
- `ClientDetailView`'s `loadAppointments` and `loadPhotos` are `@State` loaders over the endpoints above and are not modelled.
- `DateFormatter` and `Calendar` are not modelled. Dates and times are the strings the formatters print. "Today" and the current time are parameters. What a formatter reads back from a string is the parameter `dateRead`/`timeRead`.
- Floating point is not modelled:
  - `euros`, `formattedPrice`, `formattedTotalPrice` and `formattedAmount` are exact integer renderings of cents. They coincide with `%.2f` for amounts of practical size. `Double(cents) / 100` is itself rounded, so from about 2^46 euros (7,036,874,417,766,400 cents) `%.2f` may print a different last digit.
  - `formattedSpend`, `formattedRevenue`, `monthName` and the form's total label are not modelled.
- Formatting.Euros: negative cents print as "€-x.yy", as `%.2f` prints them. The rounding of `Double(cents) / 100` for very large amounts (about 2^46 euros and up) is not modelled.
- Swift's 64-bit overflow trap on the price and duration sums is not modelled; the sums are unbounded integers.
- Character handling is simplified:
  - `String.count` is taken as the length of the character sequence.
  - `CharacterSet.decimalDigits` is taken as the ASCII digits only.
  - Swift's `<` on strings is taken as lexicographic order on characters.
  - Swift's `==` and `!=` on strings compare up to Unicode canonical equivalence, while the model compares character sequences. For example, a precomposed "é" and "e" followed by a combining accent are equal in Swift but differ in the model. This affects `RegisterView.IsValid` (`password == confirmPassword`) and the date test in `ClientDetailView.Earlier`/`Later`.
- Sorting.SortBy: `sort(by:)` is not stable, so the contracts fix the multiset and the order but not the placement of ties. The model's insertion sort is one admissible result.
- AppointmentViewModels.AppointmentViewModel.CreateAppointment: the list is stated as the model's insertion sort of the old list plus the new appointment. That sort puts the new appointment before existing ones with the same start time. Swift's unstable `sort` may place such ties in any order; what it promises is the `SortedBy` and multiset clauses of the same contract.
- AppointmentFormView.AppointmentForm.Save: `Array(selectedServiceIds)` lists the set in an order Swift does not specify. That order is the parameter `order`; the contract states only that it enumerates the set.
- Expense photo URLs are stated for ids of equal length (UUID strings always are).

## Findings

| source | as written | input that shows it | evidently intended | confidence | as-written member | corrected member |
|---|---|---|---|---|---|---|
| Onicotech/ViewModels/ClientViewModel.swift:51-63 | `deleteClient(at:)` reads `clients[index]` and calls `remove(at: index)` on the list it is shortening, so after the first removal each later offset points one row further on | three clients a, b, c; the user selects rows 0 and 1; both deletions succeed: a and c are deleted on the server and in the list, and b stays. Selecting rows 0 and 2 traps with an index out of range | delete exactly the selected rows, picked before any removal | not executed | ClientViewModels.AsWrittenDeletesUnselectedRow | ClientViewModels.CorrectedDeletesSelectedRows |
