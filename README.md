# Mangrove threat reporting: a verified model of its core

The application lets community members register, report threats to mangrove
sites (illegal logging, pollution, encroachment and so on) and lets reviewers
move a report through its statuses while every change is written to an audit
log. This project models three pieces of it in Dafny and proves what each
promises:

- **The backend store** (`server.dfy`, module `Server`). It covers the User, Report and AuditLog schemas with their defaults. The three collections are held by a `Store` class: two maps and an append-only sequence. Its handlers are `POST /api/users`, `POST /api/reports`, `PUT /api/reports/:id` and `GET /api/reports` with `populate("userId")`. A database call that throws is a parameter (`fault`, `updateFault`, `saveFault`), and so is the clock (`now`).
- **The registration form** (`register.dfy`, module `Registration`). `validateForm` is modelled as a method that builds the error map key by key, proved equal to a specification function `Errors`. The component state is a class holding the form and the errors, with `handleChange`, validation and `handleSubmit`. The server's answer to the post is a parameter (`accepted`).
- **The report list view** (`reports_list.dfy`, module `ReportsView`). It covers the category/status filter, the status badge colours, the category icons and the empty-state text.
- `text.dfy` (module `Text`) models the JavaScript string primitives these rely on: `trim`, `\s`/`\S`, `\d`/`\D`, `includes` and `toLowerCase`.
- `common.dfy` holds `Option` and `Result`.

## Model

| member | source | states |
|---|---|---|
| Server.ParseRole | index.js:25 | casting a string to the role enum succeeds exactly on "community", "NGO" and "admin", and the role read back prints as the given string |
| Server.ParseRoleName | index.js:25 | every role survives printing and parsing back |
| Server.NewUser | index.js:21-28 | a user body fails exactly when it carries a role outside the enum, and the error names the path "role" and the value; otherwise the role is the given one or "community", points the given number or 0, badges the given list or empty, and name, e-mail and phone as given |
| Server.ApplyWritesNamedKeys | index.js:94 | after an update, every key present in the body holds the body's value |
| Server.ApplyKeepsOtherKeys | index.js:94 | after an update, every key absent from the body keeps its stored value |
| Server.Apply | index.js:94 | a body without report keys leaves the report unchanged; what each key does is stated by ApplyWritesNamedKeys and ApplyKeepsOtherKeys |
| Server.ApplyIdempotent | index.js:94 | sending the same update twice has the effect of sending it once |
| Server.LastWriteWins | index.js:94 | two successive updates equal one update in which the later keys override the earlier ones |
| Server.NewReport | index.js:30-39 | a new report has status "pending" unless the body gives one, in which case it keeps it; timestamp the current time unless given; userId, lat, lng, photoUrl, category and description as given |
| Server.NewReportAbsorbsBody | index.js:79 | applying the creation body again to the created report changes nothing |
| Server.AuditReviewer | index.js:98 | the recorded reviewer is "system" exactly when the body's reviewer is missing, empty or "system"; a non-empty reviewer is kept; the result is never empty |
| Server.Populate | index.js:88 | a report's user is populated exactly when its userId is present and names a stored user, and is then that user |
| Server.Listing | index.js:88 | the listing over the identifiers below `n` has at most one entry per identifier |
| Server.ListingSound | index.js:87-90 | every listed entry is a stored report with its own identifier, paired with its populated user |
| Server.ListingOrdered | index.js:88 | the listing is in strictly increasing identifier order, so no report is listed twice |
| Server.ListingComplete | index.js:88 | every stored report is listed |
| Server.Store.constructor | index.js:49-51 | the collections start empty |
| Server.Store.CreateUser | index.js:62-70 | an invalid role gives the validation error and a throwing save gives the database error, and in both cases no user is stored; otherwise exactly one user, `NewUser(body)`, is added under a fresh identifier; reports and the audit log never change |
| Server.Store.CreateReport | index.js:77-85 | a throwing save stores nothing and returns the database error; otherwise exactly one report, `NewReport(body, now)`, is added under a fresh identifier; users and the audit log never change |
| Server.Store.UpdateReport | index.js:92-105 | a throwing update changes nothing and appends no entry; otherwise only the report with that identifier is changed, by exactly the body's keys; an unknown identifier changes no report, answers `null` and is still logged; a throwing save leaves the log as it was; otherwise exactly one entry (path id, body status or none, reviewer or "system", now) is appended; the log only grows, by at most one entry, and users never change |
| Server.Store.ListReports | index.js:87-90 | GET answers every stored report once, in identifier order, each with its populated user |
| Registration.Form.With | Frontend/src/Components/Register.jsx:36 | the named field takes the new value and every other field keeps its value |
| Registration.Errors | Frontend/src/Components/Register.jsx:15-28 | error keys are only ever name, email and phone |
| Registration.ErrorsByField | Frontend/src/Components/Register.jsx:16-28 | each field's entry is present exactly when its check fails, and carries the message for the failure |
| Registration.ValidateForm | Frontend/src/Components/Register.jsx:15-32 | the key-by-key built map equals the specification `Errors(form)`, built from an empty map so stale errors are dropped; the result is true exactly when the map is empty |
| Registration.MatchesEmail | Frontend/src/Components/Register.jsx:21 | `/\S+@\S+\.\S+/` matches somewhere in the address; a matching address has at least five characters |
| Registration.EmailPatternExamples | Frontend/src/Components/Register.jsx:21 | "a@b.c" and "x y@mail.example.org z" match; "a@b", "@b.c" and "a@.c" do not |
| Registration.HasTenDigits | Frontend/src/Components/Register.jsx:26 | exactly ten digits remain once the non-digits are removed; such a phone has at least ten characters |
| Registration.NameCheck | Frontend/src/Components/Register.jsx:18 | the name check fails exactly when the name is all white space, and then says "Name is required" |
| Registration.EmailCheck | Frontend/src/Components/Register.jsx:19-23 | the e-mail check gives at most one message, "Email is required" or "Email is invalid"; an accepted address matches the pattern and is not blank |
| Registration.PhoneCheck | Frontend/src/Components/Register.jsx:24-28 | the phone check gives at most one message, "Phone is required" or "Phone must be 10 digits"; an accepted phone has ten digits and is not blank |
| Registration.NameError | Frontend/src/Components/Register.jsx:18 | "Name is required" exactly when the name is empty or all white space, otherwise no name error |
| Registration.MatchImpliesNotBlank | Frontend/src/Components/Register.jsx:19-21 | an address matching `\S+@\S+\.\S+` is not blank |
| Registration.EmailError | Frontend/src/Components/Register.jsx:19-23 | no e-mail error exactly when the pattern matches; "Email is required" exactly when the address is blank; "Email is invalid" exactly when it is not blank and fails the pattern |
| Registration.PhoneError | Frontend/src/Components/Register.jsx:24-28 | no phone error exactly when removing non-digits leaves ten digits; "Phone is required" exactly when blank; "Phone must be 10 digits" exactly when not blank and not ten digits |
| Registration.FormattedPhoneDigits | Frontend/src/Components/Register.jsx:26 | "(555) 123-4567" holds ten digits once the non-digits are removed |
| Registration.FormattedPhoneAccepted | Frontend/src/Components/Register.jsx:26 | a phone written "(555) 123-4567" passes validation |
| Registration.ValidIff | Frontend/src/Components/Register.jsx:15-31 | the form is valid exactly when the name is not blank, the e-mail matches and the phone has ten digits |
| Registration.RoleNotValidated | Frontend/src/Components/Register.jsx:15-28 | changing the role never changes the errors, and the role never has an error |
| Registration.InitialFormErrors | Frontend/src/Components/Register.jsx:5-10 | the initial (and reset) form fails with exactly the three "is required" messages |
| Registration.ClearError | Frontend/src/Components/Register.jsx:38-40 | a shown message for the edited field becomes empty; the keys and every other entry stay; with no shown message the map is untouched |
| Registration.RegisterForm.constructor | Frontend/src/Components/Register.jsx:5-12 | the component starts with the initial form and no errors |
| Registration.RegisterForm.HandleChange | Frontend/src/Components/Register.jsx:34-41 | only the edited field of the form changes, and the errors become `ClearError` of the old errors |
| Registration.RegisterForm.Validate | Frontend/src/Components/Register.jsx:30-31 | the error state is replaced by `Errors(form)`, and the answer is true exactly when it is empty |
| Registration.RegisterForm.Submit | Frontend/src/Components/Register.jsx:43-52 | the errors are those of the submitted form; the form is posted exactly when it has none; it is reset to the initial form exactly when it was posted and accepted |
| Text.TrimStartShape | Frontend/src/Components/Register.jsx:18 | trimming the start removes a white-space prefix and stops at a non-space character |
| Text.TrimEndShape | Frontend/src/Components/Register.jsx:18 | trimming the end removes a white-space suffix and stops at a non-space character |
| Text.IsSpace | Frontend/src/Components/Register.jsx:18 | the JavaScript white-space and line-terminator characters that `trim` removes and `\s` matches; none of them is a digit |
| Text.Trim | Frontend/src/Components/Register.jsx:18 | `s.trim()` is never longer than `s`, and is empty or starts and ends with a non-space character |
| Text.TrimEmptyIffAllSpace | Frontend/src/Components/Register.jsx:18 | `s.trim()` is empty exactly when every character of `s` is white space |
| Text.IsBlank | Frontend/src/Components/Register.jsx:18 | `!s.trim()` holds exactly when every character of `s` is white space |
| Text.DigitsNoLonger | Frontend/src/Components/Register.jsx:26 | `s.replace(/\D/g, '')` is never longer than `s` |
| Text.DigitsOfDigitFree | Frontend/src/Components/Register.jsx:26 | removing the non-digits of a string without digits leaves nothing |
| Text.DigitsAppend | Frontend/src/Components/Register.jsx:26 | removing the non-digits distributes over concatenation |
| Text.ToLower | Frontend/src/Components/ReportsList.jsx:26 | each upper-case ASCII letter maps to the same letter in lower case; every other character is kept |
| Text.Lower | Frontend/src/Components/ReportsList.jsx:26 | lower-casing keeps the length and maps each character by `ToLower` |
| Text.LowerIdempotent | Frontend/src/Components/ReportsList.jsx:26 | lower-casing twice equals lower-casing once |
| Text.Includes | Frontend/src/Components/ReportsList.jsx:26 | `hay.includes(needle)` holds exactly when the needle occurs at some position of the hay |
| ReportsView.Keep | Frontend/src/Components/ReportsList.jsx:25-29 | with both filters empty every report is kept; a kept report has exactly the status filter's status when one is set |
| ReportsView.FilterReports | Frontend/src/Components/ReportsList.jsx:25-29 | the filtered list is never longer than the fetched list |
| ReportsView.SubsequenceNoLonger | Frontend/src/Components/ReportsList.jsx:101 | a subsequence is never longer than the sequence it comes from |
| ReportsView.FilterIsSubsequence | Frontend/src/Components/ReportsList.jsx:25-29 | the filtered list is an order-preserving subsequence of the fetched list, so "Showing N of M" has N at most M |
| ReportsView.FilterKeepsOnlyMatches | Frontend/src/Components/ReportsList.jsx:25-29 | every shown report satisfies the filter predicate |
| ReportsView.FilterMembership | Frontend/src/Components/ReportsList.jsx:25-29 | a report is shown exactly when it was fetched and satisfies the category and status conditions |
| ReportsView.EmptyFiltersShowAll | Frontend/src/Components/ReportsList.jsx:26-27 | with both filters empty the filtered list is the fetched list |
| ReportsView.FilterIdempotent | Frontend/src/Components/ReportsList.jsx:25-29 | filtering the filtered list again with the same filters returns it unchanged |
| ReportsView.CategoryFilterIgnoresCase | Frontend/src/Components/ReportsList.jsx:26 | two category filters that lower-case alike select the same reports |
| ReportsView.LowerCaseFilterSelectsSame | Frontend/src/Components/ReportsList.jsx:26 | typing the category filter in lower case selects the same reports |
| ReportsView.StatusFilterIsCaseSensitive | Frontend/src/Components/ReportsList.jsx:27 | the status match is exact: "Pending" does not select a "pending" report |
| ReportsView.StatusColor | Frontend/src/Components/ReportsList.jsx:31-39 | pending, in-progress, resolved and rejected map to the yellow, blue, green and red classes; gray is chosen exactly for every other status |
| ReportsView.CategoryIcon | Frontend/src/Components/ReportsList.jsx:41-51 | the six named categories map to their icons; the warning sign is chosen exactly for every other category |
| ReportsView.Body | Frontend/src/Components/ReportsList.jsx:105-113 | cards are shown exactly when some fetched report passes the filter, and then they are the filtered list; otherwise "No threats reported yet." when nothing was fetched, and "No reports match your filters." when something was |
| ReportsView.UnfilteredNeverSaysNoMatch | Frontend/src/Components/ReportsList.jsx:105-109 | with both filters empty the empty state appears exactly when no report was fetched |

## Left out

- I/O and plumbing: the MongoDB connection, Express, CORS, body parsing and `listen` (index.js:1-18, 107-109). The upload endpoint and its disk storage with a `Date.now()` file name (index.js:53-59, 72-75) are left out too. All of these are I/O.
- The frontend's axios calls, fetch-on-mount effect, loading and success flags, `alert` and `setTimeout` are I/O. The post's outcome is the `accepted` parameter of `Registration.RegisterForm.Submit`.
- Date and coordinate rendering in the list (`formatDate`, `toFixed(4)`) is left out: it is locale and floating-point formatting.
- All JSX markup is left out. So are App.jsx and the older forms Register.js, Report.js and Reportlist.js, which only copy inputs into state and post them.
- Server.Store: identifiers are natural numbers from a counter, not ObjectIds. A path id that does not cast to an ObjectId (a cast error with answer 400) is not modelled.
- Server.Store: Mongoose strict mode drops keys not in the schema. The model keeps only schema keys in `ReportFields`, with `reviewer` carried beside them in `UpdateBody`, so other unknown keys are not represented.
- Server.Store: the audit entry's own identifier and the document version keys are not modelled.
- Server.Store: values in the body are not cast (`points`, `lat`, `lng`), and a non-string role is not represented. `findByIdAndUpdate` runs no validators, but it still casts the values, so a value that fails its cast (`lat: "abc"`) makes the update throw. That is the `updateFault` path of `Server.Store.UpdateReport`; the model does not derive it from the body. A failed cast on creation is likewise the `fault` path of `CreateUser` and `CreateReport`.
- Server.Store: concurrent requests are not modelled. Each handler runs to completion, so two updates of one report apply in order (last write wins, `Server.LastWriteWins`).
- Server.AuditReviewer: only string reviewers are modelled. A truthy number is cast to its decimal string, which the model does not represent. A plain object or array fails the string cast, so `log.save()` throws; that is the `saveFault` path of `Server.Store.UpdateReport` (answer 400, report already updated, no entry written).
- Server.Store.ListReports: the listing order is an assumption. `Report.find()` has no sort, and MongoDB promises no order for an unsorted find; the model lists in identifier order.
- Server.NewReport: the `Date.now` default is the `now` parameter, and timestamps are integers, not `Date` values.
- Text.ToLower: `toLowerCase` is modelled on ASCII letters only. Other letters are kept as they are, whereas JavaScript lower-cases them by Unicode rules.
- ReportsView.Keep: every report is assumed to carry a category. A report without one makes the source's filter throw (`report.category.toLowerCase()` on `undefined`) when a category filter is set; the model has no such report.
- Server.Store.UpdateReport: an unknown identifier is not an error. The handler answers success with a `null` report and still writes an audit entry (index.js:94-101), and the model does the same.
