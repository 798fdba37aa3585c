# event-yagya in Dafny

A model of the core of event-yagya, a web application for a spiritual event
(the Maha Satchandi Mahayagya). Donors fill in a donation form and receive a
pass: a QR code carrying a random pass id, plus a sequential receipt number.
The pass is saved to a document database together with a salted hash of its
pass id, amount and date. Anyone can verify a pass on the home page, by typing
its display id or scanning its QR code. An administrator logs in through a
serverless endpoint, sees and exports the ledger, posts updates and changes the
event's status. A second serverless endpoint answers chat questions through a
language model. Both endpoints rate-limit each client.

The model has one module per concern:

- `Strings` holds the JavaScript string operations the code relies on: `trim`, `slice`, `split(..)[0]`, `toUpperCase`, `replace`, integer-to-text conversion and `join`.
- `Crypto` holds an idealised bcrypt/argon2 digest and hexadecimal encoding.
- `Types` holds the records of `types.ts`.
- `Store` models the document collection and its `listDocuments` queries, as a `seq<Doc>`.
- `Appwrite` models the receipt sequencer, the uniqueness re-check, the save with its retry, the two-stage verification and the ledger read-back.
- `RateLimit` holds the fixed-window limiter both endpoints keep in memory. It is a class over a `map` that the endpoints update in place.
- `Http` covers client address extraction.
- `AdminAuth` and `Chat` model the two endpoints.
- `DonationPage`, `Home`, `AdminDashboard` and `App` model the pages and the shell. Their state is kept in classes whose methods update it.

Network outcomes, clocks and random values are parameters:

- whether a query reaches the database;
- what the "top five receipt ids" query answers on each attempt;
- the write error, if any;
- the random word of the fallback id;
- the salt;
- the session token's bytes;
- the model's reply.

## Model

| member | source | states |
|---|---|---|
| Strings.Trim | api/admin-auth.ts:97 | `trim` removes whitespace from both ends and never lengthens its input; the result is empty exactly when the input is all whitespace |
| Strings.TrimSlice | services/appwrite.ts:265 | what `trim` returns is one contiguous piece of its input |
| Strings.TrimIdempotent | pages/AdminDashboard.tsx:121 | trimming an id twice (the dashboard trims, then the service trims again) is the same as trimming it once |
| Strings.TrimPadded | api/admin-auth.ts:96-97 | whitespace around a trimmed text is exactly what `trim` removes |
| Strings.IntToStringInjective | pages/Donation.tsx:70 | different numbers have different decimal texts, so distinct receipt numbers give distinct display ids |
| Strings.DecimalRoundTrip | pages/Donation.tsx:70 | the decimal text of a natural number reads back as that number |
| Strings.JoinCount | pages/AdminDashboard.tsx:101 | a join contains the separator's character once per gap, plus every occurrence inside the parts |
| Crypto.Hash | services/appwrite.ts:41 | an idealised digest: it verifies against exactly the text it was given and no other; bcrypt's 72-byte cut is applied to that text by the caller (`Appwrite.BcryptInput`) |
| Crypto.HexRoundTrip | api/admin-auth.ts:53 | the hexadecimal text of a byte string decodes back to those bytes |
| Store.SelectMembers | services/appwrite.ts:272-276 | an equality query returns exactly the documents whose field matches, and nothing exactly when none does |
| Store.SelectAppend | services/appwrite.ts:202-222 | a newly created document is found after every earlier match |
| Store.ListDocuments | services/appwrite.ts:149-153 | a limited query returns at most `limit` matching documents, the first ones in storage order; it is empty exactly when the limit is 0 or nothing matches |
| Appwrite.VerificationSecret | services/appwrite.ts:33-34 | the configured secret is used when set, otherwise a non-empty default |
| Appwrite.GenerateVerificationHash | services/appwrite.ts:28-43 | the hash verifies against the first 72 bytes of `passId:amount:timestamp:secret`, the part bcrypt reads |
| Appwrite.Propose | services/appwrite.ts:73-99 | an empty batch or a null top id gives 10001; otherwise top + 1, which counts as a collision exactly when that value is already in the batch |
| Appwrite.SortedBatchProposesSuccessor | services/appwrite.ts:67-95 | on a batch sorted in descending order the collision check never fires and the proposal is the maximum + 1 |
| Appwrite.FallbackReceiptId | services/appwrite.ts:126-141 | the fallback id lies in 10000..909999 |
| Appwrite.NextReceiptId | services/appwrite.ts:53-120 | at most `maxRetries` queries are made; a normal id comes from the last query's batch after every earlier attempt failed or collided; the random fallback is used only when every attempt failed or collided |
| Appwrite.GetNextReceiptId | services/appwrite.ts:53-120 | the retry loop produces exactly the allocation `NextReceiptId` describes and never throws |
| Appwrite.EmptyCollectionGivesBase | services/appwrite.ts:73-99 | an empty collection, or a top document without a receipt id, gives 10001 after one query |
| Appwrite.SortedFirstBatchGivesSuccessor | services/appwrite.ts:73-95 | a sorted first batch with maximum m gives m + 1 after one query, and that is at least 10001 when m is at least 10000 |
| Appwrite.IsReceiptIdUnique | services/appwrite.ts:147-162 | "unique" exactly when no stored document has the id, or when the query fails (it fails open) |
| Appwrite.BuildRecord | services/appwrite.ts:202-222 | the written record is marked verified and carries the hash, the document id, the donation's pass id, amount, transaction id and purpose, and its receipt id or 0; the name defaults to "undefined", the payment method to "mobile_payment" and the date to the clock, so name and payment method are never empty |
| Appwrite.Save | services/appwrite.ts:169-236 | at most 4 − retryCount uniqueness checks; the collection gains exactly the saved document or nothing; the saved document's hash verifies against the donation's pass id, amount and timestamp, and it carries the receipt and transaction ids the call left on the donation |
| Appwrite.SaveDonationDetails | services/appwrite.ts:169-236 | the recursive save produces exactly the run `Save` describes |
| Appwrite.SaveOnlyReallocates | services/appwrite.ts:184-187 | the caller's donation changes only by re-allocation: a new receipt id, with a `YGYA-` transaction id that carries it |
| Appwrite.SavedReceiptIdIsUnique | services/appwrite.ts:172-193 | when every uniqueness query reaches the database, no earlier document holds the saved receipt id |
| Appwrite.ExhaustionNeedsEveryCheckToCollide | services/appwrite.ts:182-192 | the exhaustion error comes only after one colliding check per remaining attempt, with the collection unchanged |
| Appwrite.ExhaustionCountsEveryCheck | services/appwrite.ts:182-192 | an exhausted save made 4 − retryCount checks |
| Appwrite.ExhaustionFollowsLastCollision | services/appwrite.ts:182-192 | an exhausted save ends holding a receipt id that the last check found taken |
| Appwrite.Locate | services/appwrite.ts:270-305 | the pass-id match comes first, and the transaction-id match only when no document has that pass id; nothing is found exactly when neither field matches any document |
| Appwrite.Verdict | services/appwrite.ts:298-346 | "verified" exactly when a located document's hash matches its pass id, amount and normalised date; not found when nothing is located; a document without a hash gives the generic failure (the throwing `compare`), with no document; a hash mismatch gives "tampered", carrying the document |
| Appwrite.CloudVerdict | services/appwrite.ts:261-361 | a failed lookup gives the generic failure; a lookup that reaches the database gives exactly the verdict on what it finds; only an authentic document is ever reported valid |
| Appwrite.VerifyFromCloud | services/appwrite.ts:261-361 | verification of the trimmed id produces exactly `CloudVerdict` and never throws |
| Appwrite.NoPlusNoOffset | services/appwrite.ts:323 | normalisation leaves a date without '+' unchanged |
| Appwrite.OffsetRewriteIsTolerated | services/appwrite.ts:322-323 | a date the database rewrote from `Z` to `+00:00` normalises back to the hashed text |
| Appwrite.SaveThenVerify | services/appwrite.ts:196-346 | a pass just saved under a fresh pass id and an ISO date verifies by its pass id |
| Appwrite.LocateAppended | services/appwrite.ts:202-276 | a document appended under a pass id no earlier document has is what a lookup by that pass id finds |
| Appwrite.SavedDateIsTimestamp | services/appwrite.ts:214-218 | the saved date is the donation's own timestamp when it has one |
| Appwrite.PayloadDeterminesAmount | services/appwrite.ts:324-326 | two payloads that differ only in the amount give different bcrypt inputs, when both amounts end inside the first 72 bytes |
| Appwrite.PayloadDeterminesPassId | services/appwrite.ts:324-326 | two payloads that differ only in pass ids of one length (at most 72) give different bcrypt inputs |
| Appwrite.TamperedAmountDetected | services/appwrite.ts:324-339 | changing the stored amount of an authentic document makes its hash fail, when the pass id and both amounts fit in the 72 bytes bcrypt reads |
| Appwrite.TamperedPassIdDetected | services/appwrite.ts:324-339 | changing the stored pass id of an authentic document to another of the same length (UUIDs have 36 characters) makes its hash fail |
| Appwrite.TamperedDateDetected | services/appwrite.ts:323-339 | changing the stored date makes the hash fail unless both dates normalise to the same text, when both normalised dates have one length and end inside the 72 bytes bcrypt reads |
| Appwrite.SecretBeyondBcryptInputIgnored | services/appwrite.ts:324-326 | a document verifies under any secret that agrees with the real one on the characters that fall inside the first 72 bytes |
| Appwrite.DefaultSecretMostlyUnhashed | services/appwrite.ts:33-41 | with a UUID pass id, a three-digit amount and an ISO date, a pass made with the default secret verifies under its first six characters, "yagya-" |
| Appwrite.UnhashedFieldsUnprotected | services/appwrite.ts:324-326 | the hash does not cover the donor name, transaction id, receipt id, payment method or description: rewriting them goes undetected |
| Appwrite.LookupPathsAgree | services/appwrite.ts:270-296 | a document whose ids are unambiguous gets the same verdict by pass id and by transaction id |
| Appwrite.ToDonation | services/appwrite.ts:377-388 | a read-back donation keeps the document's id, pass id and amount, always has a transaction id and a payment method, and is marked successful |
| Appwrite.FetchAllDonations | services/appwrite.ts:368-398 | one donation per stored document, in storage order; an empty list when the query fails |
| Appwrite.StoredRecordRoundTrip | services/appwrite.ts:202-388 | a record written for a well-formed donation reads back as that donation, with the database's document id as its id |
| RateLimit.CeilDiv | api/admin-auth.ts:78-80 | `Math.ceil(x / d)` is the least multiple count covering x |
| RateLimit.WindowCheck | api/admin-auth.ts:25-49 | allowed exactly when there is no record, the record expired, or its count is below the maximum; an expired or missing record is replaced by a fresh window counting this request; an open window below the maximum counts one more request, keeping its reset time; a refusal leaves the record alone and reports 0 remaining |
| RateLimit.CountStaysBounded | api/chat.ts:37-56 | a record never counts more than the maximum, and the remaining figure lies in 0..max−1 |
| RateLimit.ActiveWindowBound | api/chat.ts:44-56 | within a window still open, at most `max − count` further requests are allowed, however many are made |
| RateLimit.AtMostMaxPerWindow | api/admin-auth.ts:25-49 | of the requests one client makes from opening a window until its end, at most `max` are allowed |
| RateLimit.Sweep | api/chat.ts:17-24 | the cleanup keeps exactly the records that have not expired, unchanged |
| RateLimit.SweepPreservesDecision | api/chat.ts:32-37 | sweeping before a check changes neither the decision nor the resulting record |
| RateLimit.RateLimiter.Check | api/chat.ts:27-57 | only the client's own record changes, and it becomes the record `WindowCheck` gives, with that decision |
| RateLimit.RateLimiter.Cleanup | api/chat.ts:17-24 | the loop over the records deletes exactly the expired ones |
| Http.ClientIp | api/admin-auth.ts:10-23 | the first hop of a single `x-forwarded-for` value, trimmed; otherwise a single `x-real-ip`; otherwise "unknown" |
| Http.TrimIsInfix | api/chat.ts:66 | trimming adds no character |
| Http.FirstHopWins | api/chat.ts:60-75 | a proxy chain is attributed to its first address |
| AdminAuth.Status | api/admin-auth.ts:63-138 | status 200 exactly for a preflight and a successful login |
| AdminAuth.Body | api/admin-auth.ts:68-138 | only a preflight has no body; `success`, a session token and the absence of `error` each hold exactly for a successful login |
| AdminAuth.GenerateSessionToken | api/admin-auth.ts:52-54 | 64 lower-case hexadecimal digits that decode back to the 32 random bytes |
| AdminAuth.NormalizedPassword | api/admin-auth.ts:92-100 | a password passes validation exactly when it is a string that is not all whitespace; what is checked is its trimmed, non-empty text |
| AdminAuth.AfterRateLimit | api/admin-auth.ts:88-138 | login succeeds exactly when the trimmed password matches the configured hash; each error response (required, empty, not configured, invalid, failed) occurs exactly under its own condition |
| AdminAuth.PaddedPasswordAccepted | api/admin-auth.ts:96-124 | the password typed with whitespace around it still logs in |
| AdminAuth.OnlyTheHashedPasswordLogsIn | api/admin-auth.ts:109-124 | only the password the hash was made from, up to surrounding whitespace, logs in |
| AdminAuth.Handle | api/admin-auth.ts:56-139 | OPTIONS and non-POST requests leave the limiter alone; a POST is counted for its client before the body is read; a full window is answered 429 with the minutes left, rounded up |
| AdminAuth.RetryAfterWithinWindow | api/admin-auth.ts:77-86 | a refused client is told to wait between 0 and 15 minutes |
| Chat.Status | api/chat.ts:84-176 | status 200 exactly for a preflight and a reply |
| Chat.Sanitize | api/chat.ts:134 | the sanitised message is a prefix of the trimmed message, at most 500 characters long, and is all of it when it fits |
| Chat.SanitizeOfAcceptedIsTrim | api/chat.ts:126-134 | a message that passed the length check is only trimmed |
| Chat.Prompt | api/chat.ts:149-157 | the prompt starts with the event context and ends with the user's text |
| Chat.PromptInjective | api/chat.ts:155-157 | two different messages never share a prompt |
| Chat.AfterRateLimit | api/chat.ts:117-176 | a reply exactly when the message is a non-empty string of at most 500 characters, the key is set and the model answers; "message required", "too long" and "key missing" each occur exactly under their own condition; a body that fails to parse, or a model that throws, gives the generation failure with that error's message and whether the key is set |
| Chat.Handle | api/chat.ts:77-177 | a POST sweeps expired records, is counted for its client and carries the rate headers; a full window is answered 429 with the seconds left, rounded up |
| Chat.BlankMessageReachesModel | api/chat.ts:121-134 | a message of blanks passes validation and reaches the model as an empty user line |
| DonationPage.ValidateAmount | pages/Donation.tsx:40-49 | an amount is accepted unchanged exactly when it is a number in 1..1000000; NaN, zero and negative amounts get one message and amounts that are too large get another |
| DonationPage.SanitizeField | pages/Donation.tsx:52-53 | a prefix of the trimmed text, at most `cap` long; it is empty exactly when the text is blank or the cap is 0 |
| DonationPage.NewDonation | pages/Donation.tsx:64-75 | the donation carries the receipt id and the `ACF-` display id built from it; the donor name is the sanitised name, or "Anonymous Donor" for a blank name |
| DonationPage.DisplayIdsDistinct | pages/Donation.tsx:70 | different receipt ids give different display ids |
| DonationPage.IssuedAndReallocatedIdsDiffer | pages/Donation.tsx:70 | an `ACF-` id never equals a `YGYA-` id |
| DonationPage.SubmitFailureMessage | pages/Donation.tsx:85-91 | the connectivity message exactly for "Failed to fetch", otherwise the receipt failure message |
| DonationPage.SyncErrorMessage | pages/Donation.tsx:150-157 | never empty; the platform hint for "Failed to fetch"; otherwise the error's own message, or a default when it has none |
| DonationPage.SyncFailure | pages/Donation.tsx:100-147 | a sync succeeds exactly when the save succeeds, the capture does not throw, and an upload, if made, succeeds; a failed save reports its own message |
| DonationPage.DonationForm.HandleSubmit | pages/Donation.tsx:35-95 | an invalid amount shows its message and allocates nothing; when a `randomUUID` call throws, the form returns with the catch's message and no receipt (after the allocation, if it was the record id's); otherwise a receipt id is allocated and the page ends on the success step with the new donation as the receipt |
| DonationPage.DonationForm.SyncToCloud | pages/Donation.tsx:97-159 | the collection afterwards is the save's; the receipt shows the donation as the save left it; the status is synced exactly when nothing failed, otherwise error with the matching message; the pass is uploaded exactly when the save succeeded and a blob was made |
| Home.ToDisplay | pages/Home.tsx:91-105 | a donation is shown exactly for a valid result with a document, and it is built from that document's fields |
| Home.ShownIffAuthentic | pages/Home.tsx:89-105 | a pass is shown exactly when the cloud finds an authentic document for it |
| Home.SavedPassIsShown | pages/Home.tsx:89-105 | a pass saved moments ago shows the donor's pass id and amount when scanned |
| Home.ChooseId | pages/Home.tsx:79 | the scanned text when it is not empty, else the typed one; empty exactly when both are |
| Home.TypedHasNoLower | pages/Home.tsx:420-422 | a typed id holds no lower-case ASCII letter |
| Home.TypedLookupFindsOnlyByTransactionId | pages/Home.tsx:420-422 | with lower-case pass ids, a pass found from the keyboard is always found by its transaction id |
| Home.TrimHasNoLower | services/appwrite.ts:265 | trimming adds no lower-case letter |
| Home.VerifyForDisplay | pages/Home.tsx:89-105 | the panel shows the page's reading of the cloud's verdict on the trimmed id |
| Home.VerifyInput | pages/Home.tsx:79-105 | no request without an id; otherwise the answer for the chosen id |
| Home.HomeVerifier.HandleVerify | pages/Home.tsx:77-113 | without an id nothing changes; otherwise the answer is shown, verification ends, and scanning stops only if the callback saw it running |
| Home.HomeVerifier.Submit | pages/Home.tsx:77-113 | submitting the form verifies the typed id, ends verification and stops the scanner; with no id typed nothing changes |
| Home.HomeVerifier.OnTyped | pages/Home.tsx:420-422 | the id field holds the upper-cased input |
| Home.HomeVerifier.StartScanner | pages/Home.tsx:115-139 | the previous answer is cleared; scanning continues exactly when the camera opens, otherwise an alert is shown |
| Home.HomeVerifier.OnScanned | pages/Home.tsx:127-131 | the decoded text is trimmed into the field and verified by the handler the scanner was started with, and verification ends; when neither the scan nor the captured id holds text, only the field changes |
| Home.HomeVerifier.CloseModal | pages/Home.tsx:151-156 | scanning stops, the modal closes, the id and the answer clear |
| Home.ScannedTextVerifiedAsIs | pages/Home.tsx:128-130 | a scan that is not blank verifies exactly its trimmed text |
| AdminDashboard.TotalIsSum | pages/AdminDashboard.tsx:66 | the `reduce` total is the sum of the amounts |
| AdminDashboard.TotalBounds | pages/AdminDashboard.tsx:66 | with accepted amounts, the total lies between the count and the cap times the count |
| AdminDashboard.Dashboard.TotalDonations | pages/AdminDashboard.tsx:66 | the displayed total is the sum of the loaded donations' amounts, and the `reduce` fold seeded with 0 |
| AdminDashboard.ReceiptCell | pages/AdminDashboard.tsx:92 | the cell is empty exactly for a missing receipt id or 0, otherwise it is its decimal text |
| AdminDashboard.Row | pages/AdminDashboard.tsx:89-97 | seven cells, in the header's order, holding the donation's fields |
| AdminDashboard.CsvLines | pages/AdminDashboard.tsx:79-98 | the header line, then one line per donation in order |
| AdminDashboard.CsvContent | pages/AdminDashboard.tsx:99-101 | the export starts with the CSV data-URI prefix |
| AdminDashboard.ExportHasOneLinePerDonation | pages/AdminDashboard.tsx:99-101 | the export has exactly one line break per donation when no field holds one |
| AdminDashboard.RowCommas | pages/AdminDashboard.tsx:101 | a row has six separating commas plus every comma its cells hold |
| AdminDashboard.PlainRowHasSevenColumns | pages/AdminDashboard.tsx:89-101 | a row whose fields hold no comma has exactly seven columns |
| AdminDashboard.CommaInNameAddsColumn | pages/AdminDashboard.tsx:89-101 | any donor name holding a comma gives its row more than six separating commas, shifting the columns (the cells are not quoted) |
| AdminDashboard.NewUpdate | pages/AdminDashboard.tsx:68-74 | the posted update carries the draft's fields, the fresh id and the time |
| AdminDashboard.ShowsDetail | pages/AdminDashboard.tsx:439 | details are shown exactly for a valid result carrying a document |
| AdminDashboard.DetailOnlyForAuthentic | pages/AdminDashboard.tsx:439 | only a pass whose stored document is authentic shows its details, and they are that document's |
| AdminDashboard.Dashboard.LoadDonations | pages/AdminDashboard.tsx:49-64 | the cloud's donations replace the list, and loading ends |
| AdminDashboard.Dashboard.AddUpdate | pages/AdminDashboard.tsx:68-76 | the update made from the draft is posted and the form is cleared; only the draft changes |
| AdminDashboard.Dashboard.HandleVerifyPass | pages/AdminDashboard.tsx:114-133 | the result shown is the cloud's verdict on the trimmed id, and verification ends; only the result and the spinner change |
| AdminDashboard.VerifyTrimmed | pages/AdminDashboard.tsx:121 | verifying an already-trimmed id gives the verdict on the trimmed id |
| App.PersistedState | App.tsx:41-50 | the saved state keeps updates, schedule and event info, and never donations |
| App.LoadState | App.tsx:15-26 | start-up restores the saved state with its donations emptied, or the initial state |
| App.ReloadKeepsAllButDonations | App.tsx:15-50 | a reload restores everything except the donations |
| App.AdminAtLoad | App.tsx:28-30 | the admin flag is set at start-up exactly when the session entry holds "active" |
| App.StoredTokenNeverRestoresSession | App.tsx:28-30 | the stored session token is never "active", so a reload logs the administrator out |
| App.PassIds | App.tsx:90-92 | the set of the donations' pass ids |
| App.FilterNew | App.tsx:93-95 | never longer than the cloud's list |
| App.FilterNewMembers | App.tsx:93-95 | exactly the cloud donations whose pass id is not already held are kept |
| App.FilterNewSingle | App.tsx:93-95 | a single donation is kept exactly when its pass id is not held |
| App.FilterNewAppend | App.tsx:93-95 | filtering a concatenation is the concatenation of the filtered parts, so the kept donations keep the cloud's order |
| App.FilterNewCons | App.tsx:93-95 | filtering a list filters its first donation, then the rest |
| App.MergeCloud | App.tsx:88-101 | the held donations stay, in order, at the end of the merged list, after the new cloud donations in the cloud's order (`FilterNewAppend`) |
| App.MergeCloudMembers | App.tsx:88-101 | the new donations come from the cloud with pass ids not held before; every cloud pass id is held afterwards |
| App.MergeIdempotent | App.tsx:88-101 | logging in again with the same cloud contents adds nothing |
| App.FilterNewUnique | App.tsx:93-95 | filtering keeps pass ids unique |
| App.MergeKeepsPassIdsUnique | App.tsx:88-101 | the merge introduces no duplicate pass id |
| App.RefusalMessage | App.tsx:106-112 | the lock-out message is prefixed; otherwise the server's message, then its error, then a default |
| App.LoginAlert | App.tsx:104-124 | every refused or failed login shows a non-empty alert |
| App.RefusalAlerts | App.tsx:104-124 | each refusal of the endpoint is shown in the endpoint's own words |
| App.AcceptedToken | App.tsx:78-83 | a token is accepted exactly from an authenticated answer, and it is that answer's token |
| App.DonationsAfterLogin | App.tsx:86-102 | the donation list after login is the merge with the cloud's donations |
| App.StatusNamesDistinct | App.tsx:162-166 | the status notification tells the statuses apart |
| App.RemoveUpdate | App.tsx:149-154 | exactly the updates with another id remain |
| App.RemoveUpdateSingle | App.tsx:149-154 | a single update is dropped exactly when it carries the id |
| App.RemoveUpdateAppend | App.tsx:149-154 | removal from a concatenation is the concatenation of the removals, so the remaining updates keep their order |
| App.RemoveAbsent | App.tsx:149-154 | removing an id no update carries changes nothing |
| App.AddThenRemove | App.tsx:140-154 | posting an update with a fresh id and then removing it restores the list |
| App.AppShell.constructor | App.tsx:15-30 | the shell starts from what local storage holds |
| App.AppShell.HandleLogin | App.tsx:67-125 | login succeeds exactly when the endpoint authenticates; then the admin flag and token are set and the cloud's donations are merged; otherwise an alert and no change |
| App.AppShell.Logout | App.tsx:127-130 | the admin flag and session clear; the state is untouched |
| App.AppShell.AddUpdate | App.tsx:140-147 | the update goes first, and a notification carries its title |
| App.AppShell.RemoveUpdateById | App.tsx:149-154 | the updates with that id are removed |
| App.AppShell.UpdateStatus | App.tsx:156-168 | the status is set, with a notification exactly when it changed |

## Left out

- Amounts are integers. `Number(...)` of a fractional text, and JavaScript's floating-point arithmetic in the total, are not modelled.
- Characters are Unicode scalar values, not UTF-16 code units, so `length` and `slice` count code points.
- Strings.ToUpper upper-cases ASCII letters only. The full Unicode case mapping of `toUpperCase` is not modelled.
- Each request reads the clock once. The endpoints read `Date.now()` up to three times per request.
- The database, storage and model SDKs are left out; their outcomes are parameters.
- Retry backoff delays, `setTimeout` steps and concurrent requests are left out. The model runs one call at a time, and the collection each sequencer attempt sees is a parameter.
- Rendering, the DOM, `html2canvas` and the pass image itself are left out.
- `encodeURI` of the CSV and the download link are left out.
- ISO date formatting (the `X-RateLimit-Reset` header, the CSV file name, `new Date().toISOString()`) is left out. Dates are opaque text.
- bcrypt and argon2 are idealised as a collision-free salted digest (`Crypto.Digest`). bcrypt's cut of its input at 72 bytes is modelled (`Appwrite.BcryptInput`) on characters: exact for the ASCII payloads (UUID, digits, ISO date), not for a secret holding non-ASCII characters.
- `Math.random`, `randomUUID`, `getRandomValues` and `randomBytes` give parameters.
- Service-worker registration and notification delivery are left out. The notification to show is returned instead.
- A JSON body that fails to parse in the shell's login is merged into "no response".
- App.LoadState: the start-up `JSON.parse` of a stored `community_event_state` is taken to succeed. A corrupt entry makes it throw and start-up fail, which the model does not capture: the parsed state arrives as an `Option` parameter.
- The headers and empty body of the CORS preflight are not modelled.
- `services/geminiService.ts` and the home page's chat panel are not part of this model.
- `uploadPassImage` is a parameter: the upload error.
- Appwrite.TamperedAmountDetected: stated only when the pass id and both amounts end inside the first 72 bytes; an amount past that point is not covered by bcrypt at all.
- Appwrite.TamperedPassIdDetected: stated for a replacement pass id of the same length; pass ids of other lengths shift the later fields and are not covered.
- Appwrite.TamperedDateDetected: stated for normalised dates of one length that end inside the first 72 bytes.
- Appwrite.FetchAllDonations: returns every document. The unfiltered `listDocuments` call gets the server's default page size (25), which is not visible in the code.
- DonationPage.DonationForm.HandleSubmit: the `catch` at pages/Donation.tsx:85-94 is reached only through a throwing `randomUUID`, since `getNextReceiptId` never throws; `onDonate` and `setReceipt` cannot throw in the model. The 1.2 s delay before the success step is collapsed.
- The `catch` branches at pages/Home.tsx:106-108 and pages/AdminDashboard.tsx:123-129 cannot fire, since `verifyFromCloud` never throws. They are not modelled.
- Home.HomeVerifier.HandleVerify: the intermediate writes (spinner on, answer cleared) are overwritten before the handler returns. Only the final state is stated.
- Home.HomeVerifier.HandleVerify: `stopScanner`'s asynchronous `stop()` of the camera is reduced to clearing the scanning flag.
- Appwrite.NextReceiptId: the `isNaN` guard is not modelled. A receipt id is a nullable integer attribute, so it never holds NaN.
