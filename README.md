# SOPMaster: a verified model of the builder's logic

SOPMaster is a single-page browser application (`app.js`). A signed-in user fills in a
three-stage builder that produces a standard operating procedure (SOP), can save it, and
sees monthly counters and the most recent saved SOPs on a dashboard. Everything is kept in the
browser's `localStorage`. This project models the logic under the markup and proves what it
does:

- **The local store** (`StoreSpec`, `Store`). Four records live under the keys
  `sopmaster:user`, `sopmaster:stats`, `sopmaster:auth` and `sopmaster:sops`. The model covers:
  - the monthly roll-over in `getStats`;
  - the save handler, which appends to the list and adds to the counters;
  - "Reset month";
  - sign-in by e-mail code and by the simulated Google prompt, both ending in `completeLogin`;
  - "Log out".

  `StoreSpec` states each of these as a function from the old storage to the new one, with
  lemmas about it. `Store.LocalStore` is the mutable object: its map field is updated step by
  step, and each method is proved to leave exactly the storage its `StoreSpec` function
  describes.
- **The builder** (`Wizard.BuilderController`). It holds the stage and the collected values.
  Its "Next" handlers are guarded by validation, its "Back" handlers step back, and "Generate"
  builds the SOP.
- **The document generator** (`Template`). `buildSOP` is modelled as data: sections with a
  heading and lines. The lemmas cover the number of procedure entries, their two-digit
  numbering, the Action/Control/Outcome lines, which governance sections appear, the default
  brief, the footer and trimming.
- **Small encoders and checks**:
  - `escapeHtml` (`Escape`);
  - the e-mail pattern `^\S+@\S+\.\S+$` (`Email`);
  - the verification code, the document id and `cryptoRandomId` (`Ids`);
  - `monthKey` (`Month`);
  - JavaScript's `trim`, decimal and hex numerals and `padStart` (`Text`).
- **The dashboard's view of the store** (`Dashboard`) and **the route table** (`Router`).

The clock, the random sources and the browser's locale are parameters:

- `year`/`month0` stand for `new Date()`.
- `loadMonth` is the month the script was loaded in. `DEFAULT_STATS` is built once, at load.
- `draw < 900000` stands for `Math.floor(Math.random() * 900000)`.
- Eight bytes stand for `crypto.getRandomValues`.
- `dateText` and `createdAt` strings stand for `toLocaleDateString()` and `toISOString()`.

The page text calls the longer variant "26-step" (app.js:357, 453, 474, 482). Its table
`procedure26` (app.js:602-636), however, has 33 rows: seven preparatory steps, then "Step 1" to
"Step 26". Every row becomes a numbered entry, so the document numbers "01." to "33.". The model
follows the code and proves 33 entries for length "26" (`Template.BuildSopEntryCount`).

## Model

| member | source | states |
|---|---|---|
| Text.Trim | app.js:707-711 | `String.prototype.trim` with JavaScript's white-space set. The result has no white space at either end, and it is empty exactly when the input is all white space. |
| Text.TrimRemovesOnlySpaces | app.js:707-711 | Trimming removes only white space at the two ends; the result is the input with those characters cut off. |
| Text.TrimIdempotent | app.js:707-711 | Trimming twice is trimming once. |
| Text.NatToString | app.js:26 | `n.toString(radix)` for a non-negative `n`, and `String(n)` for radix 10 (also used at app.js:546, 639, 974 and 1029). The numeral is non-empty, each character is a digit of the radix, and it starts with `0` exactly when `n` is 0. |
| Text.NatToStringRoundTrip | app.js:26 | Reading a numeral written by `String(n)` (radix 10) or `toString(16)` gives `n` back. |
| Text.IntToStringInjective | app.js:26 | Different years are written differently. |
| Text.PadStart | app.js:26 | `padStart`: strings already at or above the width are unchanged; otherwise fill characters are added in front up to the width. |
| Escape.ReplaceAll | app.js:1227-1231 | `replaceAll` with a one-character search string, scanning left to right. When the replacement does not contain the searched character, the result does not contain it either. |
| Escape.EscapeHtml | app.js:1225-1232 | `escapeHtml`: the five chained `replaceAll` calls, with `null`/`undefined` as the empty string. What its output is and how it decodes are proved in the four lemmas below. |
| Escape.EscapeHtmlIsPerCharacter | app.js:1225-1232 | Because `&` is replaced first, the five chained `replaceAll` calls escape each character independently. |
| Escape.EscapeHtmlOfNothing | app.js:1226 | `null` or `undefined` escapes to the empty string. |
| Escape.EscapeHtmlIsSafe | app.js:1225-1232 | The output has no raw `<`, `>`, `"` or `'`. Every `&` in it begins one of the five entities. |
| Escape.EscapeHtmlRoundTrip | app.js:1225-1232 | Decoding the five entities gives back exactly the input, so nothing is escaped twice. |
| Email.IsValidEmail | app.js:970 | The test `/^\S+@\S+\.\S+$/.test(email)`, written as a scan: a non-space run, `@`, then a non-space run holding a `.` with non-space on both sides. `Email.IsValidEmailMatchesPattern` proves it equals the pattern. |
| Email.IsValidEmailMatchesPattern | app.js:961-970 | The scan accepts a string exactly when it is in the language of `^\S+@\S+\.\S+$`. |
| Email.FindAt | app.js:961 | Finds the first `@` at or after a position, or reports that there is none. |
| Ids.CryptoRandomId | app.js:1026-1030 | `cryptoRandomId`: each of the eight bytes as two lower-case hex digits, joined. Its shape and decoding are in `Ids.CryptoRandomIdShape`. |
| Ids.CryptoRandomIdShape | app.js:1026-1030 | A new user id is 16 lower-case hex digits. Byte `k` is written at positions `2k` and `2k+1`, so decoding the id gives the bytes back. |
| Ids.VerificationCode | app.js:974 | `String(Math.floor(100000 + Math.random()*900000))` for a draw below 900000. Its shape and injectivity are in the next two lemmas. |
| Ids.VerificationCodeShape | app.js:974 | The code is six decimal digits. Its value is `100000 + draw`, which lies in 100000..999999. |
| Ids.VerificationCodeInjective | app.js:974 | Different draws give different codes. |
| Ids.DocumentId | app.js:546 | The document id is "SOP-" followed by six decimal digits. |
| Month.MonthKey | app.js:25-27 | `monthKey`: the year, `-`, and the 1-based month padded to two digits. Its shape and injectivity are in the three lemmas below. |
| Month.MonthKeyShape | app.js:25-27 | The key is the year, a `-`, then the 1-based month as exactly two digits. |
| Month.MonthKeyInjective | app.js:25-27 | Two dates give the same key exactly when they have the same year and month. |
| Month.MonthKeyFourDigitYear | app.js:25-27 | For a four-digit year the key is `YYYY-MM`: seven characters with `-` at index 4. |
| Template.SectionTexts | app.js:554-584 | Each section is written as its heading and lines, one per line. |
| Template.Headings | app.js:554-673 | The headings are the sections' headings, in order. |
| Template.NumberingDigits | app.js:638-639 | A step number is two decimal digits whose value is the 1-based position. |
| Template.ProcedureEntries | app.js:586-641 | The procedure has 33 entries for length "26" and 13 for any other length. Entry `i` starts with number `i+1` in two digits and ". ", then has its Action, Control and Outcome lines. |
| Template.BuildSopEntryCount | app.js:586-641 | The same entry counts, for the wording the application ships. |
| Template.GovernanceVariants | app.js:643-673 | Sections 9.0 Policy & Compliance, 10.0 Risk, 11.0 Financial Impact and 12.0 Change Management appear exactly when the length is "26". Otherwise the sections are 8.0 QA & Controls and 9.0 Change Control. |
| Template.BriefCleanCases | app.js:548 | A missing or blank brief becomes "Digital Marketing". Any other brief is used trimmed, and is then non-empty. |
| Template.InputSignalLine | app.js:554-557 | The document opens with the five executive sections, and the summary's "Input Signal" line carries the cleaned brief. |
| Template.DocumentLayout | app.js:675-686 | For any wording: the untrimmed body is the result plus one line break. The result starts with the executive-summary heading, ends with the "Generated: … · Document ID: …" line, and is trimmed. |
| Template.BuildSop | app.js:544-686 | `buildSOP` with the shipped wording: the trimmed document. Its entry counts and layout are in `Template.BuildSopEntryCount` and `Template.BuildSopLayout`. |
| Template.BuildSopLayout | app.js:544-686 | The same layout facts for `buildSOP` itself. |
| StoreSpec.ReadUser | app.js:39 | `getUser()`: the stored user, or `None` when nobody is signed in. No ensures; `StoreSpec.CompleteLoginSpec`, `StoreSpec.ClearUserSpec` and `StoreSpec.SignInThenDashboard` state what it reads after each operation. |
| StoreSpec.KeysDistinct | app.js:15-20 | The four storage keys are different strings. |
| StoreSpec.GetStats | app.js:29-37 | `getStats()` as a function from the storage to the reported record and the new storage. `StoreSpec.GetStatsSpec` states its cases. |
| StoreSpec.GetStatsSpec | app.js:29-37 | The result is always for the current month. A stored record for the current month is returned unchanged and nothing is written. Any other case returns a zeroed record for the current month, which is written back unless nothing was stored and the month has not changed since load. Other keys are untouched. |
| StoreSpec.GetStatsIdempotent | app.js:29-37 | A second `getStats()` reports the same record and writes nothing. |
| StoreSpec.GetStatsOnlyReadsStats | app.js:29-37 | The reported counters depend only on the stats key. |
| StoreSpec.SaveSop | app.js:756-765 | The "Save to dashboard" handler as a function on the storage. `StoreSpec.SaveSopSpec` states its result. |
| StoreSpec.SaveSopSpec | app.js:756-765 | Saving appends exactly one entry at the end of the list and leaves earlier entries untouched. The SOP count rises by 1, and the hours by 2 for "13" or 5 for "26", from what `getStats` reported. User and challenge are untouched. |
| StoreSpec.SavesAccumulate | app.js:756-765 | Two saves add both entries in order, two SOPs, and the sum of both lengths' hours. |
| StoreSpec.ResetMonth | app.js:851-856 | The "Reset month" handler as a function on the storage. `StoreSpec.ResetMonthSpec` states its result. |
| StoreSpec.ResetMonthSpec | app.js:851-856 | After "Reset month" both counters for the current month are 0, and `getStats` reports that. Only the stats key changes. |
| StoreSpec.CompleteLogin | app.js:1013-1020 | `completeLogin` as a function on the storage. `StoreSpec.CompleteLoginSpec` states its result. |
| StoreSpec.CompleteLoginSpec | app.js:1013-1020 | An existing user keeps id and creation time, and only the e-mail changes. A first sign-in gets a new user with a 16-digit hex id. Stats are seeded (zeroed, for the load month) only when none are stored. The list and the challenge are untouched. |
| StoreSpec.SendCode | app.js:968-975 | The "Send verification code" handler as a function on the storage. `StoreSpec.SendCodeSpec` states its result. |
| StoreSpec.SendCodeSpec | app.js:968-975 | An address failing the pattern writes nothing. Otherwise the single challenge is replaced by the trimmed address and a six-digit code in 100000..999999, and nothing else changes. |
| StoreSpec.VerifyCode | app.js:995-1005 | The "Verify & continue" handler: its outcome and the new storage. `StoreSpec.VerifyCodeSpec` states its cases. |
| StoreSpec.VerifyCodeSpec | app.js:995-1005 | With no challenge stored, and for an entry that is not the code when trimmed, verification fails and changes nothing. Otherwise it signs in as the challenge's address. The challenge stays stored. |
| StoreSpec.SendThenVerify | app.js:968-1005 | After a code is sent, verification signs in as the sent address exactly when the trimmed entry equals the issued code; any other entry is rejected as incorrect. |
| StoreSpec.GoogleSignIn | app.js:959-966 | The simulated Google sign-in: the signed-in address, if any, and the new storage. `StoreSpec.GoogleSignInSpec` states its cases. |
| StoreSpec.GoogleSignInSpec | app.js:959-966 | The simulated Google sign-in succeeds exactly when an address was typed and it matches the pattern, and then signs in as that address. Otherwise nothing changes. |
| StoreSpec.ClearUserSpec | app.js:41 | `clearUser()` removes the user and nothing else. |
| StoreSpec.SignInThenDashboard | app.js:1013-1023 | A sign-in followed by the dashboard's `getStats()`: the user is signed in with the address, and the stored stats are the reported record, which is for the current month. A current record is kept. A stale record, or the default seeded for a first sign-in, is replaced by zeros for the current month. The saved list is kept. |
| StoreSpec.LogOutThenHome | app.js:816-821 | "Log out" followed by the home page's `getStats()`: nobody is signed in, the counters are what the same read reports before the log-out, and the saved list is kept. |
| StoreSpec.OperationsKeepWellFormed | app.js:29-41 | Every storage operation keeps each key holding its own kind of record: `setStats`, `setUser`, `getStats`, the save handler, "Reset month", `completeLogin`, sending a code, verifying it, the Google sign-in and `clearUser`. |
| Store.LocalStore.constructor | app.js:15-22 | The store starts from the stored records. `loadMonth` is the month key at load. |
| Store.LocalStore.SetStats | app.js:38 | Writes the stats record, as `StoreSpec.SetStats`. |
| Store.LocalStore.SetUser | app.js:40 | Writes the user record, as `StoreSpec.SetUser`. |
| Store.LocalStore.User | app.js:39 | `getUser()` on the object: `StoreSpec.ReadUser` of its storage. No ensures; `Store.LocalStore.ClearUser` and `Store.LocalStore.CompleteLogin` state it after each call. |
| Store.LocalStore.ClearUser | app.js:41 | Removes the user key. Afterwards nobody is signed in. |
| Store.LocalStore.GetStats | app.js:29-37 | Returns a record for the current month and leaves exactly the storage `StoreSpec.GetStats` describes. |
| Store.LocalStore.SaveSop | app.js:756-765 | Push, write, `getStats`, two increments, write. Leaves exactly `StoreSpec.SaveSop`'s storage, and the saved list grows by the one entry. |
| Store.LocalStore.ResetMonth | app.js:851-856 | Leaves the zeroed record for the current month, as `StoreSpec.ResetMonth`. |
| Store.LocalStore.CompleteLogin | app.js:1013-1020 | Leaves exactly `StoreSpec.CompleteLogin`'s storage, with a user signed in under the given e-mail. |
| Store.LocalStore.SendCode | app.js:968-975 | Reports whether a code was issued, which happens exactly when the trimmed address is acceptable. Leaves `StoreSpec.SendCode`'s storage. |
| Store.LocalStore.VerifyCode | app.js:995-1005 | Returns the outcome and leaves the storage of `StoreSpec.VerifyCode`. |
| Store.LocalStore.GoogleSignIn | app.js:959-966 | Returns the signed-in address, if any, and leaves the storage of `StoreSpec.GoogleSignIn`. |
| Dashboard.Reverse | app.js:276 | `reverse()`: position `k` of the result holds element `n-1-k`. |
| Dashboard.Recent | app.js:276 | `slice(-8).reverse()` keeps min(8, n) entries, newest first, where row `k` is the `k`-th newest. |
| Dashboard.RowOf | app.js:276-282 | One `<tr>` of the recent table: escaped title, escaped category, escaped length followed by " steps", and the stored creation time. No ensures; `Dashboard.RowDecodes` and `Dashboard.RowsAreSafe` state its cells. |
| Dashboard.RowsOf | app.js:276-283 | One row per entry, in order. |
| Dashboard.RecentTable | app.js:270-292 | `renderRecentSopsTable()`: the placeholder, or the rows of the newest entries. `Dashboard.ListingSpec` states its contents. |
| Dashboard.ListingSpec | app.js:270-291 | The "No SOPs yet" card shows exactly when nothing is saved. Otherwise there are min(8, n) rows, newest first, and each row's title and category decode to the stored values. |
| Dashboard.RowDecodes | app.js:278-279 | A row's title and category cells read back as the saved values. |
| Dashboard.RowsAreSafe | app.js:278-279 | No title or category cell carries raw markup characters. |
| Dashboard.ShowFigures | app.js:225-249 | The month badge and the two counters the dashboard shows, from `getStats()`, with the storage it leaves. `Dashboard.SaveShowsOnDashboard` relates them across a save. |
| Dashboard.SaveShowsOnDashboard | app.js:225-250 | After a save, the new SOP is the first row. The dashboard counters have gone up by one SOP and that length's hours. |
| Router.Resolve | app.js:825 | The page `routes` maps the path to, and `NotFound` for any other path. `Router.ResolveSpec` states which paths reach which page. |
| Router.Render | app.js:198-199 | `fn()` for the resolved page, where `AppShell` shows the home page behind the sign-in dialog when nobody is signed in. `Router.RenderSpec` states when the dialog opens. |
| Router.ResolveSpec | app.js:52-60 | A path resolves to `NotFound` exactly when the table does not name it. A path resolves to a workspace page exactly when it is one of the table's `/app/` paths. |
| Router.RenderSpec | app.js:68-75 | The sign-in dialog opens exactly for a workspace path with nobody signed in, and the home page is then shown behind it. A workspace page is shown only to a signed-in user, and other pages render the same either way. |
| Wizard.BuilderController.constructor | app.js:691 | The builder starts at stage 1 with nothing collected. |
| Wizard.BuilderController.SubmitIdentity | app.js:706-718 | Stage 1 moves to stage 2 exactly when all five trimmed values are non-empty, storing them trimmed. Otherwise stage and payload are unchanged. |
| Wizard.BuilderController.SubmitBrief | app.js:722-731 | Stage 2 moves to stage 3 exactly when the trimmed brief is non-empty or a file is chosen. If only the file is chosen, the brief stored is "(Video brief attached in production)". Otherwise nothing changes. |
| Wizard.BuilderController.Back | app.js:721-734 | Back moves from 2 to 1 and from 3 to 2, and keeps the payload. |
| Wizard.BuilderController.Generate | app.js:735-754 | Produces the entry the save handler stores: the collected title and category, the button's length (one `HOURS_PER_SOP` knows) and `buildSOP` of the collected values. The text is trimmed, starts with the executive summary and ends with the document-id line. |
| StatsAliasing.GetStatsAsWritten | app.js:29-37 | `getStats()` with `DEFAULT_STATS` as one shared object: it hands back that object itself when nothing is stored, and spreads it on a roll-over. |
| StatsAliasing.SaveSopAsWritten | app.js:756-765 | The save handler as written: the increments land on whatever object `getStats()` returned, the shared one included. |
| StatsAliasing.ResetMonthAsWritten | app.js:853-856 | "Reset month" as written: it spreads the shared `DEFAULT_STATS` object as it now is. |
| StatsAliasing.ResetAfterSaveKeepsCounts | app.js:756-765 | As written: with no stats stored, a save followed by "Reset month" leaves one SOP and its hours stored. |
| StatsAliasing.ResetAfterSaveExample | app.js:851-856 | Concrete case: a 13-step save and a reset in January 2025 leave `{monthKey: "2025-01", sopsThisMonth: 1, hoursSavedThisMonth: 2}`. |
| StatsAliasing.CorrectedResetAfterSave | app.js:851-856 | Corrected: "Reset month" after any save leaves zero SOPs and zero hours, and keeps the saved list. |
| StatsAliasing.AgreeWhenStored | app.js:29-37 | When the stats key is stored, the code as written and the corrected model save identically, and the shared default is not touched. |
| StatsAliasing.RolloverAfterSaveKeepsCounts | app.js:31-34 | As written: with no stats stored, after a save in the load month the first `getStats()` of a later month in the same page session reports and stores one SOP and that SOP's hours. |
| StatsAliasing.CorrectedRolloverAfterSave | app.js:31-34 | Corrected: after any save, the first `getStats()` of a later month reports and stores zero SOPs and zero hours, and the saved list keeps the entry. |

## Left out

- Markup is not modelled: the HTML view functions, the three.js hero and tilt animations (app.js:1059-1223), toasts, the step dots, `history.pushState` and `popstate`. They build strings for the DOM or drive animation, and hold no logic beyond what is modelled.
- The `await sleep(1800)` in the "Generate" handler (app.js:735-754) is a suspension point, and the model does not capture it. Pressing "Back" during the wait removes the output area, and the handler's later `qs("#copySop").onclick` (app.js:752) then fails on `null`. The handler also reads the payload only after the wait, so values submitted again in the meantime are the ones used. That is a UI race that leaves the storage alone. `Wizard.BuilderController.Generate` runs without interruption, at stage 3.
- The template's prose is a `Wording` parameter. The structure lemmas hold for every wording, and `WORDING` holds the sentences the application ships. The section headings are kept literally.
- The month key, the creation times in the user and SOP records, `toLocaleDateString()`, `Math.random` and `crypto.getRandomValues` are all parameters. The code calls the clock and the random sources there.
- `JSON.parse`/`JSON.stringify`: the store holds typed records. Malformed stored text is not handled by the code either.
- Sending the code through EmailJS (app.js:1032-1053) is a network call. It is left out; only the demo path, where the code is shown on screen, is captured. That path changes no stored state.
- The recent table's `createdAt` cell is kept as the stored string. Its `toLocaleString()` rendering is locale-dependent.
- `navigator.clipboard` ("Copy") and `closeAuthModal` are outside the state modelled. `navigate` is not modelled as a call. Each handler that ends with it re-renders, and the dashboard (app.js:226) and the home page (app.js:830) then call `getStats()`, which may roll a stale stats record over. `StoreSpec.SignInThenDashboard` and `StoreSpec.LogOutThenHome` state sign-in and log-out together with that read. For the other handlers that re-render, `StoreSpec.GetStatsSpec` states what that read does.
- `localStorage.setItem` failures (quota exceeded, storage disabled) are not modelled: the store is an unbounded map whose writes always succeed. In the code a throw, for example at app.js:760, stops the save handler after the writes already made.
- Store.LocalStore.SaveSop: requires a length that `HOURS_PER_SOP` knows. Only the two "Generate" buttons, with "13" and "26", can produce a saved entry; any other length would make the code add `undefined`.
- StoreSpec.DefaultStats: a fresh zeroed record. The code shares one `DEFAULT_STATS` object; that behaviour is modelled separately in `StatsAliasing` (see Findings).
- Store.LocalStore.GoogleSignIn: the address comes from `prompt` and is not trimmed, as in the code. `None` stands for a cancelled prompt.

## Findings

| source | as written | input that shows it | evidently intended | confidence | as-written member | corrected member |
|---|---|---|---|---|---|---|
| app.js:29-37 | With no stats stored, `getStats()` returns the shared `DEFAULT_STATS` object, and the save handler increments it in place. "Reset month" spreads that object, so it writes the incremented counters back. | A signed-in user whose `sopmaster:stats` key is missing (for example, cleared) saves a 13-step SOP in the load month, then presses "Reset month". The stored stats are 1 SOP and 2 hours. | "Reset month" zeroes both counters. | low: reachable only while the stats key is absent; not executed | StatsAliasing.ResetAfterSaveKeepsCounts | StatsAliasing.CorrectedResetAfterSave |
| app.js:31-34 | `getStats()` starts a new month by spreading `DEFAULT_STATS`. After a save with no stats stored, that shared object holds the save's increments. | With the `sopmaster:stats` key missing, a 13-step SOP is saved in the load month, and the page stays open into the next month. The dashboard then opens the new month at 1 SOP and 2 hours. | A new month starts at zero. | low: reachable only while the stats key is absent; not executed | StatsAliasing.RolloverAfterSaveKeepsCounts | StatsAliasing.CorrectedRolloverAfterSave |
