# ReBox dashboard core in Dafny

This project models the logic of the ReBox web dashboard, a Next.js front end for tracking reusable packaging. It covers these parts:

- **Tracking store.** Transactions are borrowed, returned, washed, damaged or retired.
- **Transaction table.** The row menu offers actions by status. There is an overdue rule and a status colour per row. Preferences are saved per table namespace. Row selection reports uids to the parent.
- **Transaction details sheet.** It shows a lifecycle timeline and a status badge.
- **Session.**
  - The mock auth store.
  - The in-memory token holder.
  - The HTTP client's interceptors: a `Bearer` header on requests, and navigation on 401 and 403.
  - The route guard.
  - The Google sign-in flow: persisting the session, mapping the role and the account, a degraded path, and choosing the error toast.
  - The account menu.
- **Service layer.** Response envelopes are unwrapped, and the two response-type guards are modelled. The payment link is extracted from the server's answer.
- **UI store.** It holds the theme and the sidebar, and sets the "dark" class on the document.
- **QR codes.**
  - The scanner's five state cells and its handlers.
  - Extracting a `/package/<id>` from a scanned payload.
  - The mock generator: one result per item, a summary, the large test batch, and download-all.

State the source changes in place is modelled with classes:

- the stores;
- the token cell;
- the request configuration and `window.location`;
- the data table's local state;
- the Google button;
- the scanner;
- the document root;
- the router. Its `pushed` history records each `router.push`.

What the source computes from values is modelled with datatypes and functions. Everything outside the program is a parameter:

- the clock, as integer milliseconds;
- random draws;
- `encodeURIComponent`;
- the QR image encoder;
- backend answers;
- the decoded QR payload;
- where the table library places rows, given as a view permutation.

Two places where the code and its own type declarations disagree follow the code:

- `getCurrentAccount` and `updateProfile` test a `success` flag (lib/api/services/auth.service.ts:78). But the `ApiResponse` they import declares `isSuccess` (lib/api/types/response.types.ts:12-22). `Responses.GuardsDisagree` shows that the two guards reject each other's envelope.
- The Google flow reads `profile.roles` (components/auth/google-login-button.tsx:160). `GoogleLogin.Profile` carries `roles` accordingly.

## Model

| member | source | states |
|---|---|---|
| Tracking.MapMatching | stores/tracking-store.ts:17-34 | every action keeps the list's length |
| Tracking.MapMatchingAt | stores/tracking-store.ts:17-34 | position i holds the action applied to the old entry when its id matches, and the old entry otherwise: order is kept and other ids are untouched |
| Tracking.NoMatchUnchanged | stores/tracking-store.ts:17-34 | with an id matching nothing, every action leaves the list equal to before |
| Tracking.UpdateOverwritesPresentFields | stores/tracking-store.ts:17-20 | `updateTransaction` overwrites exactly the fields present in the update and keeps all others |
| Tracking.MergeEmptyAndIdempotent | stores/tracking-store.ts:17-20 | an empty update changes nothing; the same update twice equals once |
| Tracking.MarkEffects | stores/tracking-store.ts:21-34 | markReturned sets status Returned and `returnedAt` to the clock; markDamaged/markWashing set only the status and keep `returnedAt` |
| Tracking.MapMatchingIdempotent | stores/tracking-store.ts:27-34 | markDamaged and markWashing (and id-preserving updates) are idempotent on the whole list |
| Tracking.MarkReturnedNotIdempotent | stores/tracking-store.ts:21-26 | a second markReturned with a later clock re-stamps `returnedAt`, so the list changes |
| Tracking.NoStatusPrecondition | stores/tracking-store.ts:31-34 | no status check: a Retired entry marked Washing becomes Washing |
| Tracking.TrackingStore.constructor | stores/tracking-store.ts:15 | the list starts as the given seed |
| Tracking.TrackingStore.SetTransactions | stores/tracking-store.ts:16 | the list is replaced wholesale |
| Tracking.TrackingStore.UpdateTransaction | stores/tracking-store.ts:17-20 | the new list is the update mapped over matching entries |
| Tracking.TrackingStore.MarkReturned | stores/tracking-store.ts:21-26 | the new list is markReturned at the given clock mapped over matching entries |
| Tracking.TrackingStore.MarkDamaged | stores/tracking-store.ts:27-30 | the new list is markDamaged mapped over matching entries |
| Tracking.TrackingStore.MarkWashing | stores/tracking-store.ts:31-34 | the new list is markWashing mapped over matching entries |
| Domain.AllStatusesComplete | lib/types.ts:27 | the six statuses are all the values of `TransactionStatus` |
| Columns.StatusColor | components/columns.tsx:19-26 | every status has a non-empty colour class |
| Columns.ColumnFlags | components/columns.tsx:50-51 | "select" is neither sortable nor hideable; "actions" is not hideable (line 159); every other column is hideable |
| Columns.MenuOffers | components/columns.tsx:172-195 | View Details always first; Mark Returned iff Borrowed; Mark Damaged iff neither Damaged nor Retired; Mark Washing iff Returned |
| Columns.FinalStatusMenu | components/columns.tsx:178-195 | Damaged and Retired rows offer only View Details |
| Columns.ClickKeepsIds | components/columns.tsx:178-195 | a menu click never changes any transaction's id |
| Columns.ClickKeepsFinal | components/columns.tsx:178-195 | with unique ids one click never moves a Damaged or Retired row |
| Columns.FinalStatusesStay | components/columns.tsx:178-195 | with unique ids no sequence of menu clicks moves a Damaged or Retired row out of its status |
| Columns.SharedIdReachesRetiredRow | components/columns.tsx:184-188 | without unique ids, damaging a Borrowed row also damages a Retired row with the same id |
| Columns.OverdueRule | components/columns.tsx:133 | overdue iff due strictly before now and status is not Returned |
| Columns.MarkedReturnedNeverOverdue | components/columns.tsx:133 | an entry just marked returned is not overdue at any clock |
| DetailsSheet.Render | components/tracking/transaction-details-sheet.tsx:15-16 | nothing is rendered iff there is no transaction; otherwise six steps |
| DetailsSheet.TimelineShape | components/tracking/transaction-details-sheet.tsx:18-33 | six steps in the fixed label order; first three completed, dated borrow − 2 592 000 000, borrow − 604 800 000 and borrow, strictly increasing |
| DetailsSheet.ReturnedStep | components/tracking/transaction-details-sheet.tsx:34-38 | "Returned" completed iff `returnedAt` is present, dated `returnedAt` |
| DetailsSheet.LastStepsNeverCompleted | components/tracking/transaction-details-sheet.tsx:39-46 | "Sanitized" and "Ready for Reuse" are never completed |
| DetailsSheet.NoStatusNamed | lib/types.ts:27 | no status is named "Sanitizing" or "Overdue" |
| DetailsSheet.BadgeRule | components/tracking/transaction-details-sheet.tsx:65-76 | green iff Returned, never red, empty otherwise |
| Tables.Lookup | stores/table-store.ts:77 | a namespace never set reads as the defaults (empty visibility, sorting and filters, page 0 of 10) |
| Tables.ReadAfterWrite | stores/table-store.ts:37-76 | after a setter the field reads back as written; the other fields keep their values, or the defaults for a new namespace |
| Tables.WriteIsLocal | stores/table-store.ts:37-76 | a setter leaves every other namespace's entry, and its presence, unchanged |
| Tables.WriteIdempotent | stores/table-store.ts:37-76 | each setter is idempotent |
| Tables.WritesCommute | stores/table-store.ts:37-76 | setters on different fields or namespaces commute |
| Tables.TableStore.constructor | stores/table-store.ts:36 | the tables map starts empty |
| Tables.TableStore.SetColumnVisibility | stores/table-store.ts:37-46 | the new map is the visibility write on the namespace |
| Tables.TableStore.SetSorting | stores/table-store.ts:47-56 | the new map is the sorting write on the namespace |
| Tables.TableStore.SetColumnFilters | stores/table-store.ts:57-66 | the new map is the filters write on the namespace |
| Tables.TableStore.SetPagination | stores/table-store.ts:67-76 | the new map is the pagination write on the namespace |
| Tables.TableStore.GetTableState | stores/table-store.ts:77 | the saved entry, or the defaults for a namespace never set |
| DataTables.SelectedBy | components/tracking/data-table.tsx:74-80 | at most one uid per key, and none empty |
| DataTables.SelectedByMembers | components/tracking/data-table.tsx:74-80 | a uid is reported iff it is non-empty and some key mapped to true leads to it |
| DataTables.SelectedByAppend | components/tracking/data-table.tsx:74-80 | uids come out in key order |
| DataTables.SelectedBySameLookup | components/tracking/data-table.tsx:76-78 | two lookups agreeing on every key give the same uids |
| DataTables.CountIncludesDeselected | components/tracking/data-table.tsx:73-80 | a key mapped to false is counted but reports no uid |
| DataTables.DataUidOfRowId | components/tracking/data-table.tsx:76-78 | the key `String(i)` designates data row i |
| DataTables.SelectedIdsMembers | components/tracking/data-table.tsx:74-80 | corrected: a uid is reported iff it is non-empty and the uid of a data row whose key is selected |
| DataTables.AsWrittenAgreesOnIdentityView | components/tracking/data-table.tsx:76-78 | while rows are shown in data order the code as written gives the corrected uids |
| DataTables.AsWrittenReportsWrongRow | components/tracking/data-table.tsx:76-78 | in a reversed view, selecting row "0" reports the uid of the other row |
| DataTables.DataTable.constructor | components/tracking/data-table.tsx:37-44 | local sorting, filters, visibility and initial pagination are the store's saved entry or the defaults; selection empty, search empty; local and store agree |
| DataTables.DataTable.OnSortingChange | components/tracking/data-table.tsx:53-57 | the resolved updater goes to local state and to the store under the namespace; the rest unchanged; agreement is kept |
| DataTables.DataTable.OnColumnFiltersChange | components/tracking/data-table.tsx:58-62 | the same for filters |
| DataTables.DataTable.OnColumnVisibilityChange | components/tracking/data-table.tsx:63-67 | the same for visibility |
| DataTables.DataTable.OnRowSelectionChange | components/tracking/data-table.tsx:68-83 | the selection stays local (store untouched); the parent is notified iff it gave a callback, with the key count and the corrected, data-indexed uids; while the view shows the data in order these are the uids the code as written sends |
| DataTables.DataTable.OnGlobalFilterChange | components/tracking/data-table.tsx:84 | the search stays local; nothing else changes |
| Users.MockRole | stores/auth-store.ts:23-26 | admin iff the email is exactly "admin@demo.io", manager iff "manager@demo.io", staff otherwise |
| Users.LocalPart | stores/auth-store.ts:31 | the longest prefix without '@', followed by '@' or the end |
| Users.Capitalized | stores/auth-store.ts:31 | first character upper-cased, the rest unchanged |
| Users.MockUserFields | stores/auth-store.ts:28-34 | the mock user carries the email, a demo role, the avatar seeded with the email, and the capitalised local part as name |
| Users.AuthStore.constructor | stores/auth-store.ts:16-18 | user and token null, not authenticated |
| Users.AuthStore.Login | stores/auth-store.ts:19-41 | the mock user, a token starting "mock-jwt-token-", authenticated; the password takes no part; authentication implies a token |
| Users.AuthStore.Logout | stores/auth-store.ts:42-48 | exactly the initial triple |
| Users.AuthStore.SignIn | components/auth/google-login-button.tsx:190 | user, token and authenticated flag all set |
| Users.AuthStore.SignInTokenOnly | components/auth/google-login-button.tsx:220 | token and flag set, user kept |
| TokenHolder.TokenCell.constructor | lib/token.ts:2 | the token starts null |
| TokenHolder.TokenCell.SetToken | lib/token.ts:4-6 | the cell holds the argument, null included |
| TokenHolder.TokenCell.GetToken | lib/token.ts:8-10 | returns the held token and changes nothing |
| TokenHolder.SetThenGet | lib/token.ts:4-10 | `getToken` returns the most recent `setToken` argument |
| HttpClient.BaseUrl | config/axios.config.ts:5 | the configured URL when non-empty, else the default; never empty |
| HttpClient.BearerRule | config/axios.config.ts:16-21 | Authorization "Bearer "+token added iff token present and non-empty and headers exist; no other header changes |
| HttpClient.BearerIdempotent | config/axios.config.ts:16-21 | intercepting twice adds nothing more |
| HttpClient.InterceptRequest | config/axios.config.ts:13-24 | the same config comes back, its headers as the header step says |
| HttpClient.InterceptResponse | config/axios.config.ts:30-37 | a successful response passes through unchanged |
| HttpClient.ErrorNavigationRule | config/axios.config.ts:38-57 | 401 outside "/login" and "/verify-email*" goes to the login page with the encoded path; 403 goes to "/"; nothing else navigates |
| HttpClient.LoginWithQueryStillRedirects | config/axios.config.ts:41-46 | a 401 on "/login?x=1" still redirects |
| HttpClient.InterceptResponseError | config/axios.config.ts:38-59 | `href` becomes the navigation target if any; the same error is rejected |
| Guard.DecideRule | components/auth-guard.tsx:15-29 | redirect to "/login" iff spinner iff not authenticated away from "/login" |
| Guard.AuthenticatedSeesChildren | components/auth-guard.tsx:16-29 | authenticated users get the page, never a redirect |
| AccountMenu.DisplayName | components/dashboard/user-menu.tsx:33-34 | never empty |
| AccountMenu.DisplayNameIsFirstNonEmpty | components/dashboard/user-menu.tsx:33-34 | the first non-empty of userName, fullName, trimmed "first last", email, "User"; trimming removes ECMAScript's whitespace and line terminators, the no-break space and the other Unicode space separators included |
| AccountMenu.NoBreakSpaceNameFallsThrough | components/dashboard/user-menu.tsx:33-34 | a first name of one no-break space trims away, so the display name is the email, or "User" |
| AccountMenu.Split | components/dashboard/user-menu.tsx:37 | at least one part, none containing a space |
| AccountMenu.JoinSplit | components/dashboard/user-menu.tsx:37 | joining the parts with " " gives back the name |
| AccountMenu.SplitAtSpace | components/dashboard/user-menu.tsx:37 | splitting at a space concatenates the splits |
| AccountMenu.NonEmpty | components/dashboard/user-menu.tsx:38 | keeps only non-empty parts |
| AccountMenu.NonEmptyAppend | components/dashboard/user-menu.tsx:38 | filtering distributes over concatenation |
| AccountMenu.Heads | components/dashboard/user-menu.tsx:39-40 | one character per word, its first |
| AccountMenu.InitialsRule | components/dashboard/user-menu.tsx:36-41 | the initials are the upper-cased first characters of the non-empty words, in order |
| AccountMenu.WordsAtSpace | components/dashboard/user-menu.tsx:36-38 | the words of "a b" are those of a then those of b |
| AccountMenu.RunsOfSpaces | components/dashboard/user-menu.tsx:36-41 | a second space contributes no word and no initial |
| AccountMenu.Render | components/dashboard/user-menu.tsx:31-62 | nothing is rendered iff there is no user |
| AccountMenu.HeadingIsDisplayName | components/dashboard/user-menu.tsx:52 | the heading `userName || displayName` is the display name |
| AccountMenu.HandleLogout | components/dashboard/user-menu.tsx:23-29 | the store is back to its initial triple and "/login" is pushed |
| GoogleLogin.MapRoleRule | components/auth/google-login-button.tsx:158-171 | admin iff first role lower-cases to "admin"/"administrator"; merchant iff "merchant"; guest iff "guest"; consumer without roles |
| GoogleLogin.MapRoleFirstOnly | components/auth/google-login-button.tsx:160-161 | only the first role matters |
| GoogleLogin.MapAccountFields | components/auth/google-login-button.tsx:173-187 | id and email copied; userName falls back to email; fullName is "first last" iff both names are non-empty, else the userName fallback; status "active" |
| GoogleLogin.FieldLineList | components/auth/google-login-button.tsx:248-249 | one "field: m1, m2" line per field, in order |
| GoogleLogin.FieldLinesPair | components/auth/google-login-button.tsx:248-250 | the lines are joined with newlines |
| GoogleLogin.ErrorToastOrder | components/auth/google-login-button.tsx:245-267 | description from field errors, else response message, else error message, else the generic text |
| GoogleLogin.GoogleLoginButton.HandleGoogleLogin | components/auth/google-login-button.tsx:30-110 | no client id: configuration error, no Google API; Google missing or failing: error toast; loading ends false on every error |
| GoogleLogin.GoogleLoginButton.HandleGoogleCallback | components/auth/google-login-button.tsx:112-271 | missing ID token or access token, or a backend error: error toast, nothing written (auth store, token cell, persisted snapshots and route all unchanged). Otherwise the token snapshot is persisted and the token cell set before the profile request. A profile: the user is stored and the route is "/admin" iff admin, else "/". No profile: token only, then "/". Loading always ends false |
| AuthService.GetMessageRule | lib/api/services/auth.service.ts:34-43 | nothing for non-objects; a top-level string message wins, even empty; else the body's string message; non-strings ignored |
| AuthService.EmptyTopMessageHidesBodyMessage | lib/api/services/auth.service.ts:30-37 | an empty top-level message hides the body's, so the generic text is thrown |
| AuthService.PostApiRule | lib/api/services/auth.service.ts:20-32 | the body iff response and body exist and 200 ≤ status < 300; else the message or "API request failed" |
| AuthService.PostDataRule | lib/api/services/auth.service.ts:46-60 | login and register return exactly the envelope's `data` |
| AuthService.UnwrapFlaggedRule | lib/api/services/auth.service.ts:74-97 | inner data iff the `success` flag and data are truthy; else the message or the fallback |
| AuthService.ProfileFallbacks | lib/api/services/auth.service.ts:81-96 | fetch and update fail alike, with "Failed to fetch profile" and "Failed to update profile" as fallbacks |
| ApiResponses.ExtractData | lib/api/types/response.types.ts:91-93 | the `data` field unchanged |
| ApiResponses.NotSuccessUnlessTrue | lib/api/types/response.types.ts:54-86 | success iff `isSuccess` exists and is true; a BaseResponse-shaped object never is; false never is |
| ApiResponses.ExtractDataIgnoresFlag | lib/api/types/response.types.ts:82-93 | the extracted data does not depend on the flag |
| Responses.ExtractData | types/response.types.ts:85-87 | the `data` field unchanged |
| Responses.NotSuccessUnlessTrue | types/response.types.ts:48-80 | success iff `success` exists and is true; a BaseResponse-shaped object never is; false never is |
| Responses.ExtractDataIgnoresFlag | types/response.types.ts:76-87 | the extracted data does not depend on the flag |
| Responses.GuardsDisagree | types/response.types.ts:76-80 | each guard rejects the other's success envelope while extracting the same data |
| Payment.ExtractPaymentLink | services/payment.service.ts:19-26 | a returned link is truthy |
| Payment.ExtractIsFirstTruthy | services/payment.service.ts:19-26 | the first truthy of PaymentLink, paymentLink, data.paymentLink, data.PaymentLink; none when none is truthy |
| Payment.StringLinkNonEmpty | services/payment.service.ts:21-25 | a returned string link is non-empty |
| Payment.CreatePaymentLink | services/payment.service.ts:36-40 | fails with "Payment link not returned by server" iff extraction found nothing, else returns the link |
| UiStore.ToggleClass | stores/theme-store.ts:20 | "dark" present iff forced; other classes unchanged |
| UiStore.ToggleClassSettles | stores/theme-store.ts:20 | forcing is idempotent and the last force wins |
| UiStore.UIStore.constructor | stores/theme-store.ts:15-16 | light theme, sidebar open |
| UiStore.UIStore.SetTheme | stores/theme-store.ts:17-22 | only the theme changes; afterwards "dark" is present iff the theme is dark |
| UiStore.UIStore.ToggleSidebar | stores/theme-store.ts:23 | flips the sidebar, keeps the theme |
| UiStore.UIStore.SetSidebarOpen | stores/theme-store.ts:24 | sets the sidebar, keeps the theme |
| UiStore.UIStore.Rehydrate | stores/theme-store.ts:28-33 | after a restore "dark" is present iff the restored theme is dark; without state nothing changes |
| UiStore.ToggleTwice | stores/theme-store.ts:23 | two toggles restore the sidebar |
| UiStore.SetSidebarTwice | stores/theme-store.ts:24 | setting the sidebar is idempotent |
| QrScanner.FindMatch | components/qr-scanner.tsx:49 | the leftmost position where the pattern matches, or none |
| QrScanner.Run | components/qr-scanner.tsx:49 | the greedy run of characters other than '/', '?', '#' |
| QrScanner.PackageId | components/qr-scanner.tsx:48-51 | an id is non-empty and free of '/', '?', '#'; none iff the pattern matches nowhere |
| QrScanner.PackageIdIsLeftmostRun | components/qr-scanner.tsx:49-51 | the id follows the leftmost match and runs to the end or a stop character |
| QrScanner.IncludesGuardRedundant | components/qr-scanner.tsx:48-50 | the `includes` test never changes the outcome |
| QrScanner.ExtractsEncodedId | components/qr-scanner.tsx:48-53 | from origin + "/package/" + id the scanner extracts exactly id, when no marker starts inside the origin |
| QrScanner.OriginCanCompleteMarker | components/qr-scanner.tsx:49 | origin "http://package" lacks the marker, yet the scanner reads "package" from its payload |
| QrScanner.ScanErrorMessage | components/qr-scanner.tsx:64 | an Error's message, else "Failed to scan QR code" |
| QrScanner.Scanner.constructor | components/qr-scanner.tsx:14-18 | all five cells empty or false |
| QrScanner.Scanner.Reset | components/qr-scanner.tsx:23-29 | all five cells back to their initial values |
| QrScanner.Scanner.StartScanning | components/qr-scanner.tsx:31-35 | scanning on, result and error cleared, detected and processing kept |
| QrScanner.Scanner.ScanSuccess | components/qr-scanner.tsx:37-60 | result = data, detected, no error, not scanning; schedules navigation to "/package/"+id iff an id is found, else clearing `detected` |
| QrScanner.Scanner.Fire | components/qr-scanner.tsx:52-59 | a navigation timer pushes its path; the other clears `detected` |
| QrScanner.Scanner.ScanError | components/qr-scanner.tsx:62-69 | sets the error message only; scanning and result kept |
| QrScanner.Scanner.BeginFileUpload | components/qr-scanner.tsx:71-82 | accepted iff a file whose type starts with "image/"; processing starts only then |
| QrScanner.Scanner.FinishDecode | components/qr-scanner.tsx:105-113 | a payload goes through the success handler; processing always ends |
| QrScanner.Scanner.FailDecode | components/qr-scanner.tsx:117-121 | processing ends, nothing else changes |
| QrGeneration.PayloadRoundTrip | lib/mock-qr-generation.ts:54 | the scanner navigates to exactly the item id encoded by the generator |
| QrGeneration.ResultFor | lib/mock-qr-generation.ts:41-71 | the result carries the item id; success iff not failed and encoded; every error has an empty URL and a non-empty error text |
| QrGeneration.GenerateResults | lib/mock-qr-generation.ts:38-72 | exactly one result per input id, in input order |
| QrGeneration.SuccessCount | lib/mock-qr-generation.ts:74 | never above the number of results |
| QrGeneration.SuccessCountRule | lib/mock-qr-generation.ts:74 | count = length iff all succeeded; count > 0 iff some succeeded |
| QrGeneration.SummaryRule | lib/mock-qr-generation.ts:74-83 | success iff some result succeeded; the all-success message iff every result succeeded (vacuously for none), else "Generated k of n QR codes" |
| QrGeneration.MockGenerateQRCodes | lib/mock-qr-generation.ts:32-84 | the response is the summary of one result per id, in order |
| QrGeneration.LargeBatchShape | lib/mock-qr-generation.ts:109 | twenty distinct seven-character ids "PKG-" + three digits reading i+1 |
| QrGeneration.PaddedParse | lib/mock-qr-generation.ts:109 | zero padding does not change the parsed value |
| QrGeneration.DownloadsOfRule | lib/mock-qr-generation.ts:128-136 | each download comes from a succeeded entry with a URL, named "qr-code-<id>.png"; none when none qualifies |
| QrGeneration.DownloadsOfAppend | lib/mock-qr-generation.ts:128-136 | downloads keep the entries' order: those of a concatenation are those of its parts, in order |
| QrGeneration.DownloadsMatchSuccesses | lib/mock-qr-generation.ts:128-136 | with non-empty URLs, as many downloads as successes |
| QrGeneration.DownloadAll | lib/mock-qr-generation.ts:128-136 | the loop triggers exactly those downloads, in order |

## Left out

- **Persistence.** The zustand `persist` storage layer and its storage names, and `localStorage` writes, are not modelled. The Google button's writes are kept as a ghost `persisted` record, which gives their order. `UiStore.UIStore.Rehydrate` takes the restored fields as input.
- **Rendering.** JSX, styling, icons and toasts are not modelled. Only the Google flow's toasts are modelled, because the source's error selection lives there. The data table's toolbar and the column cells' formatting (date-fns) are also left out.
- **The HTTP transport.** The actual requests and `process.env` are left out. Responses, backend answers and the configured URLs are inputs. The other auth-service posts (`logout`, `refreshToken`, `changePassword`) use `PostApi` and `PostData` unchanged, so they have no members of their own.
- **getPaymentStatus.** It passes a network result through, so it has no logic to model.
- **Browser and library runtime.**
  - Google Identity Services script loading, the off-screen button and `prompt` are replaced by the `ScriptState` input.
  - The camera, `jsQR`, the canvas and object URLs are left out. `QrScanner.Scanner.FinishDecode` takes the decoded payload.
  - Resetting the file input's value is left out.
- **Timers.** Timers become explicit steps (`QrScanner.Timer` and `Fire`). The simulated network delays (mock login, QR generation, download-all) are dropped.
- **Randomness.** Random ids, tokens and the 10% failure rate are parameters.
- **TanStack table internals.** Sorting, filtering, pagination and row models are not modelled. The rows on screen are a given permutation.
- **Data-table pagination.** No handler writes pagination back to the store, so no member does either.
- **Key order.** `Object.keys` and `Object.entries` order is taken as the given order of a sequence.
- **Parsing and case.**
  - Upper- and lower-casing cover ASCII letters only.
  - `parseInt` on a row key reads leading decimal digits. It does not handle leading blanks or a sign.
- **Numbers.** JSON numbers are integers, with no fractions or NaN.
- HttpClient.InterceptRequest: the `try`/`catch` around the header step is not modelled. The model's header step cannot throw.
- AccountMenu.Heads: strings are modelled as sequences of Unicode scalar values, not UTF-16 code units. For a word whose first character lies outside the Basic Multilingual Plane, the source's `n[0]` yields only the high half of a surrogate pair. The model takes the whole character.
- AccountMenu.InitialsRule: inherits the gap in `AccountMenu.Heads`. For a word starting outside the Basic Multilingual Plane, the source's initial is a lone high surrogate, while the model's is the whole character.
- DataTables.DataTable.OnRowSelectionChange: notifies the parent with the corrected, data-indexed uids (see Findings). On a sorted, filtered or paged view the code as written sends `DataTables.SelectedIdsAsWritten` instead; the contract states the two agree only while the view shows the data in order.
- QrScanner.ExtractsEncodedId: the round trip assumes the origin does not complete the marker (`ClearOrigin`). Merely lacking "/package/" is not enough, as `QrScanner.OriginCanCompleteMarker` shows.

## Findings

| source | as written | input that shows it | evidently intended | confidence | as-written member | corrected member |
|---|---|---|---|---|---|---|
| components/tracking/data-table.tsx:76-78 | a selected key is a row id, which is the row's position in `data`. The code uses it to index `table.getRowModel().rows`, the sorted, filtered and paginated view | data uids ["U0","U1"], view sorted in reverse ([1,0]), selection {"0": true}. This reports ["U1"] instead of ["U0"]. On page two a key ≥ 10 finds no row and its uid is dropped | the uid of the data row the key designates | not executed | DataTables.AsWrittenReportsWrongRow | DataTables.SelectedIdsMembers |
