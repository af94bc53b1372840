# Invoicing application core, modelled in Dafny

This project models the logic of a small invoicing web application (bank-mvp), with one module per source file:

- **`InvoiceNumber`**: per-user invoice numbers. A counter table is incremented in place, created on first use, and read back. The counter is formatted as `INV-` plus at least three digits.
- **`Transaction`**: the transaction wrapper. It retries a unit of work only on the store's P2034 serialization/deadlock code, with exponential back-off, up to `maxRetries` attempts.
- **`Pagination`**: parsing of `page`/`pageSize` query values, page metadata with clamping, and the skip/take window.
- **`PageWindow`**: the row of page buttons with `...` gaps.
- **`InvoiceValidation`**, **`ClientValidation`**, **`AuthValidation`** and **`Schemas`**: the field rules for the invoice, client, sign-in and registration forms. This includes the hand-written email pattern `^[^\s@]+@[^\s@]+\.[^\s@]+$` and the `clientSchema` bounds.
- **`Registration`**: the `registerUser` server action. Its checks run in order, then a duplicate-email lookup, then one insert into the user store.
- **`RequestGate`**: the request middleware. It extracts the client address, picks the rate-limit key and tier, orders its 429, redirect and pass-through answers, and sets the rate-limit headers.
- **`LineItems`**, **`ArchivedToggle`**, **`Nav`** and **`ClientSearch`**: list and string rules inside UI components. These are the line-item list of the invoice form, the archived toggle's query rewrite, the active navigation link, and the client search filter.
- **`Backfill`**: the one-off migration that creates one client per distinct invoice email, links the invoices, and fills missing client phone/address values from invoice data.
- **`Text`**: JavaScript string built-ins the modules share (`trim`, `startsWith`, `includes`, ASCII `toLowerCase`, `String(n)`, `padStart`, `split(...)[0]`).
- **`Results`**: `Option` and `Result`.

State the source changes in place becomes classes:

- `InvoiceNumber.CounterTable` (the counter table);
- `Registration.UserStore` (the user table);
- `RequestGate.RateLimiter` (the limiter's log of consumed checks);
- `ArchivedToggle.SearchParams` (`URLSearchParams`);
- `Backfill.Store` (clients, invoice links and written updates).

Loops in the source are methods with loop invariants, each proved equal to a specification function about which the lemmas are stated.

External services become parameters:

- four schedules of other callers' writes to the counter table during a first-use allocation (`InvoiceNumber.Interleaving`);
- the outcome of each transaction attempt;
- the rate limiter's verdict;
- the password hash;
- fresh ids;
- zod's `.email()` test;
- `String(number)` for line-item values.

An anonymous visitor on `/login` or `/register` who passes both rate limits is let through, not redirected (src/middleware.ts:78-93). The seed script reads an invoice number back with an unanchored pattern, so "INV-12abc" reads as 12 and "X INV-7" as 7 (prisma/seed.ts:66-68).

## Model

| member | source | states |
|---|---|---|
| InvoiceNumber.Format | src/lib/invoice-number.ts:38-40 | the number starts with "INV-", is followed by digits only, and is exactly 3 digits long below 100 and the full decimal length from 100 on |
| InvoiceNumber.FirstTag | prisma/seed.ts:67 | the leftmost position from the start point where "INV-" is followed by a digit, and none when there is no such position |
| InvoiceNumber.Parse | prisma/seed.ts:67-68 | reading a number back succeeds exactly when "INV-" followed by a digit occurs somewhere in the text; the value is that of the run of digits after the leftmost such "INV-" |
| InvoiceNumber.NextSeedNumber | prisma/seed.ts:64-68 | the seed continues one past the number read back, and at 1 when there is no invoice or its number does not match |
| InvoiceNumber.FormatRoundTrip | src/lib/invoice-number.ts:38-40 | reading back a formatted number gives the counter it was formatted from, which is what lets the seed continue numbering from the number it reads back |
| InvoiceNumber.SeedContinues | prisma/seed.ts:64-68 | after an invoice numbered from counter n, the seed continues at n + 1 |
| InvoiceNumber.ParseIgnoresTrailing | prisma/seed.ts:67-68 | characters after the digits are ignored: "INV-12abc" reads as 12 |
| InvoiceNumber.ParseSkipsLeading | prisma/seed.ts:67-68 | text before "INV-" is skipped: "X INV-7" reads as 7 |
| InvoiceNumber.FormatInjective | src/lib/invoice-number.ts:38-40 | two different counters never yield the same invoice number |
| InvoiceNumber.FormatUnpaddedFrom100 | src/lib/invoice-number.ts:39 | from 100 on the digits are the plain decimal, so values above 999 are not truncated |
| InvoiceNumber.FormatExamples | src/lib/invoice-number.ts:38-40 | 1 gives "INV-001", 42 gives "INV-042", 1234 gives "INV-1234" |
| InvoiceNumber.CounterTable.IncrementReturning | src/lib/invoice-number.ts:9-14 | an existing row is raised by one and its new value returned; with no row nothing changes and no row is returned |
| InvoiceNumber.CounterTable.InsertOrIncrement | src/lib/invoice-number.ts:18-22 | a missing row is created with 1, an existing row (inserted concurrently) is raised by one instead of being reset |
| InvoiceNumber.CounterTable.Select | src/lib/invoice-number.ts:24-26 | the read-back returns the user's counter when the row exists and nothing otherwise |
| InvoiceNumber.CounterTable.GetNextInvoiceNumber | src/lib/invoice-number.ts:7-36 | an existing counter is raised by exactly one and its formatted value issued; first use with no other writer creates 1 and issues "INV-001"; a concurrently created row is incremented; increments by other callers before the read-back are included in the number issued; a vanished row fails with "Failed to initialize invoice counter"; other users' counters never change and no counter decreases |
| InvoiceNumber.CounterTable.FirstUseRace | src/lib/invoice-number.ts:16-33 | two first-use callers whose INSERTs both run before either read-back are both issued "INV-002", so the allocation is not atomic on first use |
| InvoiceNumber.CounterTable.AllocateTwice | src/lib/invoice-number.ts:7-36 | two successful allocations for one user issue strictly increasing numbers |
| Transaction.Merge | src/lib/transaction.ts:17-27 | each option the caller supplies wins and each missing one takes its default |
| Transaction.MergeEmpty | src/lib/transaction.ts:17-21 | with no options: 3 retries, 5000 ms timeout, ReadCommitted |
| Transaction.IsRetryable | src/lib/transaction.ts:39-41 | an error is retried exactly when it is a known request error with code P2034 |
| Transaction.Delays | src/lib/transaction.ts:48-50 | the pause after failed attempt k is 2^k * 100 ms |
| Transaction.BackoffDoubles | src/lib/transaction.ts:48-50 | each pause is twice the previous one, so the first two are 200 and 400 ms |
| Transaction.RunFrom | src/lib/transaction.ts:30-45 | the attempts stay within the budget, and a retryable error only comes out on the last allowed attempt |
| Transaction.Expected | src/lib/transaction.ts:23-55 | with fewer than one retry allowed nothing is attempted and "Transaction failed" is thrown; otherwise between 1 and maxRetries attempts are made |
| Transaction.RunFromFacts | src/lib/transaction.ts:30-45 | every attempt before the last failed with a retryable error; the last returned the value or threw the error that comes out; a retryable error only comes out once the budget is spent |
| Transaction.Characterisation | src/lib/transaction.ts:23-55 | a whole call makes between 1 and maxRetries attempts, or none and throws "Transaction failed" when maxRetries is below 1 |
| Transaction.SuccessStops | src/lib/transaction.ts:30-35 | if attempt k succeeds after k-1 retryable failures, its value is returned after exactly k attempts |
| Transaction.ExhaustsRetries | src/lib/transaction.ts:43-45 | when every attempt fails with P2034, exactly maxRetries attempts are made and the last error is thrown |
| Transaction.NonRetryableThrownAtOnce | src/lib/transaction.ts:39-45 | an error other than P2034 is thrown after exactly one attempt |
| Transaction.RetryThenSucceed | src/lib/transaction.ts:30-50 | one P2034 failure then success returns the value after exactly two attempts |
| Transaction.WithTransaction | src/lib/transaction.ts:23-55 | the attempt loop returns what the retry policy prescribes, together with the back-off pauses it took |
| Text.LeadingDigits | src/lib/pagination.ts:26-27 | the longest run of digits at the front of the text |
| Pagination.ParseInt | src/lib/pagination.ts:26-27 | `parseInt` yields a number exactly when digits follow the leading white space and optional sign |
| Pagination.ParseDecimal | src/lib/pagination.ts:27 | a number's own decimal text parses back to that number (the default page size survives the `String(...)` round trip) |
| Pagination.IntOr | src/lib/pagination.ts:26-27 | the result is either the fallback or a non-zero number parsed from the raw value |
| Pagination.IntOrCases | src/lib/pagination.ts:26-27 | `parseInt(raw \|\| fallback) \|\| fallback` is the fallback for a missing, empty, non-numeric or zero value and the parsed number otherwise |
| Pagination.ParsePaginationParams | src/lib/pagination.ts:23-30 | the page is at least 1 and the page size lies in 1..100 |
| Pagination.PageParsing | src/lib/pagination.ts:26 | a missing, non-numeric, zero or negative page gives 1, and any other page is kept |
| Pagination.PageSizeParsing | src/lib/pagination.ts:27-28 | a missing, non-numeric or zero page size gives 20, a negative one 1, one above 100 gives 100, and any other is kept |
| Pagination.ParseDefaults | src/lib/pagination.ts:23-30 | no query values give page 1 of size 20 |
| Pagination.ParseValid | src/lib/pagination.ts:23-30 | "3" and "50" give page 3 of size 50 |
| Pagination.ParseMinusFive | src/lib/pagination.ts:26 | "-5" parses as -5, so the sign is read |
| Pagination.ParseNotANumber | src/lib/pagination.ts:26 | text without leading digits is not a number |
| Pagination.ParseZeroPageSize | src/lib/pagination.ts:26-28 | "0" for both values gives page 1 of size 20 |
| Pagination.CeilDiv | src/lib/pagination.ts:36 | the fewest pages of the given size that hold all items |
| Pagination.CalculatePaginationMeta | src/lib/pagination.ts:32-46 | totalPages is the ceiling of totalCount / pageSize; the page is clamped to at most max(1, totalPages), is at least 1 for a requested page of at least 1, and is lowered only to that maximum; hasNextPage iff page < totalPages; hasPrevPage iff page > 1 |
| Pagination.EmptyMeta | src/lib/pagination.ts:36-37 | no items means no pages, page 1 and no neighbours |
| Pagination.CalculateSkipTake | src/lib/pagination.ts:48-53 | take is the page size and skip is non-negative for valid parameters |
| Pagination.PagesAdjacent | src/lib/pagination.ts:50-51 | page p + 1 starts exactly where page p ends |
| Pagination.ItemOnOnePage | src/lib/pagination.ts:48-53 | every item lies in the window of exactly one page, and that page is within totalPages |
| Pagination.ClampedPageHasItems | src/lib/pagination.ts:36-51 | for a non-empty result, the clamped page starts inside the data |
| PageWindow.Range | src/components/pagination.tsx:30-32 | the middle loop pushes the consecutive pages lo..hi-1 |
| PageWindow.Window | src/components/pagination.tsx:22-35 | nothing is rendered exactly when there is at most one page; otherwise the row starts with page 1 and ends with the last page |
| PageWindow.SmallWindow | src/components/pagination.tsx:25-26 | with two to seven pages the row is exactly 1..totalPages |
| PageWindow.LargeWindow | src/components/pagination.tsx:28-34 | beyond seven pages the row starts at 1, ends at totalPages and shows max(2, page-1)..min(totalPages-1, page+1); a leading "..." iff page > 3 and a trailing one iff page < totalPages - 2 |
| PageWindow.WindowAt | src/components/pagination.tsx:27-35 | each position of a long row holds the entry the construction prescribes |
| PageWindow.LargeIncreasing | src/components/pagination.tsx:27-35 | the numbers of a long row increase strictly within 1..totalPages |
| PageWindow.LargeGapsMarked | src/components/pagination.tsx:29-33 | in a long row, adjacent numbers are consecutive and every skipped stretch is marked "..." |
| PageWindow.WindowWellFormed | src/components/pagination.tsx:22-35 | every row increases strictly, marks its gaps, has at most seven entries and shows the current page when it exists |
| PageWindow.CurrentPageShown | src/components/pagination.tsx:22-35 | with the metadata of the list page, a row of two or more pages always shows the current page |
| PageWindow.PageNumbers | src/components/pagination.tsx:22-35 | the push loops build exactly the specified row, and nothing when there is at most one page |
| InvoiceValidation.ValidResult | src/lib/validation.ts:33-35 | a valid result for the field, with an empty message |
| InvoiceValidation.InvalidResult | src/lib/validation.ts:37-39 | an invalid result for the field, with the message |
| InvoiceValidation.ValidateDueDate | src/lib/validation.ts:41-52 | invalid iff the due day is before the invoice day (times of day ignored), with field "dueDate" and its message |
| InvoiceValidation.ValidateLineItems | src/lib/validation.ts:54-59 | invalid iff the list is empty |
| InvoiceValidation.ValidateLineItemQuantity | src/lib/validation.ts:61-66 | valid iff the quantity is positive |
| InvoiceValidation.ValidateLineItemPrice | src/lib/validation.ts:68-73 | valid iff the price is not negative (zero allowed) |
| InvoiceValidation.ValidateLineItemNumeric | src/lib/validation.ts:75-80 | valid iff the value is a number other than NaN; strings, null and undefined are invalid |
| InvoiceValidation.ValidateHasCompleteLineItem | src/lib/validation.ts:82-90 | valid iff some item has a description and a positive price, so the empty list is invalid |
| InvoiceValidation.AnyComplete | src/lib/validation.ts:83-85 | `some` holds iff some item is complete |
| InvoiceValidation.Push | src/lib/validation.ts:96-98 | only a failed result is appended |
| InvoiceValidation.CheckItemFacts | src/lib/validation.ts:110-120 | one item appends at most two entries and nothing iff quantity and price both pass |
| InvoiceValidation.CheckItemsGrowth | src/lib/validation.ts:110-120 | the item loop only appends, at most two entries per item, and nothing iff every item passes |
| InvoiceValidation.CheckItemsEntries | src/lib/validation.ts:110-120 | every entry the item loop appends is a failed quantity or price check |
| InvoiceValidation.InvoiceErrors | src/lib/validation.ts:92-123 | `validateInvoice` reports at most three entries plus two per item |
| InvoiceValidation.InvoiceErrorsEmptyIff | src/lib/validation.ts:92-123 | no errors iff the due date is not earlier, the list is non-empty, some item is complete and every item passes |
| InvoiceValidation.HeaderErrorsFacts | src/lib/validation.ts:95-108 | the checks before the loop report at most three entries, each a failed due-date or line-item check |
| InvoiceValidation.InvoiceErrorsOrdered | src/lib/validation.ts:95-120 | at most 3 + 2n entries; the due-date and line-item entries come first, then the quantity and price entries |
| InvoiceValidation.ValidateInvoice | src/lib/validation.ts:92-123 | the push loop returns exactly the specified ordered list of errors |
| ClientValidation.EmailPattern | src/lib/clients-validation.ts:41-42 | a string the pattern accepts has at least five characters (local part, '@', domain, '.', suffix) |
| ClientValidation.EmailPatternIffShape | src/lib/clients-validation.ts:41-42 | the regex matches iff there is a non-empty part before the first '@', no other '@', no whitespace, and a '.' with at least one character between it and the '@' and one after it |
| ClientValidation.EmailPatternNotBlank | src/lib/clients-validation.ts:36-44 | a string the pattern accepts is never blank |
| ClientValidation.ValidateClientName | src/lib/clients-validation.ts:28-33 | field "name"; valid iff the name has a non-whitespace character, otherwise "Client name is required" |
| ClientValidation.ValidateClientEmail | src/lib/clients-validation.ts:35-47 | field "email"; valid iff the pattern matches; "Email is required" iff blank; "Please enter a valid email address" iff not blank and not matching |
| ClientValidation.ValidateClient | src/lib/clients-validation.ts:49-63 | at most two errors, all invalid; none iff the name is not blank and the email matches; the name error comes first; the entries are exactly the failed name check (when the name is blank) followed by the failed email check (when the email does not match); phone and address play no part |
| ClientValidation.EmailExamples | src/lib/clients-validation.ts:41 | "ann@example.com" matches; "ann@example" and "@b.co" do not |
| AuthValidation.ValidateEmail | src/lib/auth-validation.ts:7-15 | field "email"; valid iff the pattern matches; "Email is required" only for the empty string |
| AuthValidation.ValidatePassword | src/lib/auth-validation.ts:17-29 | field "password"; valid iff at least 8 characters; the empty password is "required", a short one "too short" |
| AuthValidation.ValidateName | src/lib/auth-validation.ts:31-43 | field "name"; valid iff at least 2 characters; the empty name is "required", a short one "too short" |
| AuthValidation.EmailRulesAgree | src/lib/auth-validation.ts:7-15 | the sign-in and client rules accept the same emails; a whitespace-only email is "Invalid email format" here and "required" on the client form |
| Schemas.NameIssues | src/lib/schemas.ts:4-7 | no issue iff the name has 1..200 characters |
| Schemas.EmailIssues | src/lib/schemas.ts:8-12 | no issue iff the email has 1..254 characters and is email-shaped; an empty email reports "Email is required" first and an over-long one reports the length message last |
| Schemas.OptionalIssues | src/lib/schemas.ts:13-22 | a missing or null value passes; a present one passes iff it is within the bound |
| Schemas.ClientIssues | src/lib/schemas.ts:3-23 | at most five issues, each on the name, email, phone or address path |
| Schemas.SafeParse | src/lib/schemas.ts:3-23 | success iff every field bound holds, returning the input unchanged; otherwise one to five issues |
| Schemas.IssuesInFieldOrder | src/lib/schemas.ts:3-23 | issues come in field order: name, email, phone, address |
| Schemas.OptionalFieldsNullable | src/lib/schemas.ts:13-22 | a null phone or address is accepted exactly when a missing one is |
| Registration.InputError | src/app/actions/auth.ts:20-30 | the first failing check in the order name (at least 2), email (contains '@'), password (at least 8); none iff all pass |
| Registration.FindUnique | src/app/actions/auth.ts:32-34 | finds a user iff one has the email, and that user has it |
| Registration.Register | src/app/actions/auth.ts:17-51 | the user table only grows; it gains exactly one user when registration succeeds and is unchanged when it fails |
| Registration.RegisterOutcome | src/app/actions/auth.ts:17-51 | success iff the input passes and the email is unused, appending exactly one user with the name, email and password hash; a failure changes nothing and returns the first check's message or "An account with this email already exists" |
| Registration.RegisterKeepsEmailsUnique | src/app/actions/auth.ts:32-48 | registration keeps emails unique, and a successful registration leaves its email in use |
| Registration.SecondRegistrationRefused | src/app/actions/auth.ts:32-38 | registering an email a second time is refused and changes nothing |
| Registration.UserStore.RegisterUser | src/app/actions/auth.ts:17-51 | the guarded inserts leave the table and the result the specification prescribes, keeping emails unique |
| RequestGate.TierLimit | src/lib/rate-limit.ts:1-17 | the per-minute budgets of the three tiers (100, 20, 5) |
| RequestGate.AdvertisedLimitIsBudget | src/middleware.ts:49-89 | the `X-RateLimit-Limit` value sent for a tier (lines 49, 67 and 89) is the decimal form of that tier's budget in src/lib/rate-limit.ts |
| RequestGate.RetryAfterIsInterval | src/middleware.ts:52 | the `Retry-After` value "60" (lines 52 and 70) is the tiers' one-minute refill interval (src/lib/rate-limit.ts:5-15) in seconds |
| RequestGate.GetClientIP | src/middleware.ts:6-16 | the trimmed first comma-separated entry of a non-empty x-forwarded-for; else a non-empty x-real-ip; else "unknown" |
| RequestGate.ForwardedAddress | src/middleware.ts:10 | the forwarded address has no comma, occurs in the header, and has no white space at either end |
| RequestGate.IsAuthPage | src/middleware.ts:27-29 | an auth page (/login or /register) is never an auth API route, so the page check is never skipped |
| RequestGate.RateLimitKey | src/middleware.ts:38 | the key is the token's subject when logged in; an anonymous request with neither address header uses "unknown" |
| RequestGate.RateLimitTier | src/middleware.ts:39 | the general check never uses the auth tier |
| RequestGate.Gate | src/middleware.ts:18-94 | a request consumes at most two rate-limit checks, recorded after the earlier ones, and redirects only to "/" or "/login" |
| RequestGate.ApiAuthPassesThrough | src/middleware.ts:29-34 | /api/auth paths pass through and consume no check |
| RequestGate.GeneralCheckFirst | src/middleware.ts:37-42 | every other request first consumes the general tier, keyed by the token's subject (authenticated) or the client address (unauthenticated), and at most one more check follows |
| RequestGate.AuthTierOnlyForAnonymousAuthPages | src/middleware.ts:59-60 | the auth tier is consumed, keyed by address, exactly for anonymous requests to /login or /register that passed the general check |
| RequestGate.GeneralDenialFirst | src/middleware.ts:42-56 | a general denial answers 429 "Too many requests" before any redirect, with limit "100" or "20" by tier, remaining "0" and Retry-After "60" |
| RequestGate.AuthDenial | src/middleware.ts:59-75 | an auth-tier denial answers 429 "Too many authentication attempts" with limit "5" |
| RequestGate.RoutingAfterLimits | src/middleware.ts:78-93 | after the limits pass, a logged-in user on an auth page goes to "/", an anonymous user elsewhere to "/login", and the rest pass through with the general check's remaining and reset headers |
| RequestGate.RateLimiter.Check | src/middleware.ts:42 | a check answers with the verdict for the checks consumed so far and records itself |
| RequestGate.Middleware | src/middleware.ts:18-94 | the guarded returns produce the specified response and consume the specified checks |
| LineItems.InitialItems | src/components/invoice-form.tsx:46-55 | a new form starts with one blank row (quantity "1"); an edited invoice gives one row per stored item, with its quantity and price as text |
| LineItems.AddLineItem | src/components/invoice-form.tsx:58-63 | the same rows followed by one blank row |
| LineItems.Without | src/components/invoice-form.tsx:67 | the rows kept are exactly those with a different id |
| LineItems.RemoveLineItem | src/components/invoice-form.tsx:65-69 | a list of at most one row is left alone; otherwise exactly the rows with that id go |
| LineItems.SetField | src/components/invoice-form.tsx:74 | only the named field takes the value |
| LineItems.UpdateLineItem | src/components/invoice-form.tsx:71-77 | same length, and each row with the id gets the value in that field while the others are unchanged |
| LineItems.WithoutAppend | src/components/invoice-form.tsx:67 | filtering distributes over concatenation, so the remaining rows keep their order |
| LineItems.WithoutUnique | src/components/invoice-form.tsx:67 | with unique ids, at most one row goes, and none when the id is absent |
| LineItems.RemoveKeepsARow | src/components/invoice-form.tsx:65-69 | removing never empties a non-empty list |
| LineItems.WithoutKeepsUnique | src/components/invoice-form.tsx:67 | the filter keeps ids unique |
| LineItems.OperationsKeepIdsUnique | src/components/invoice-form.tsx:58-77 | adding with a fresh id, removing, and updating a field other than id keep ids unique |
| LineItems.UpdateOnlyThatField | src/components/invoice-form.tsx:71-77 | an update changes only the named field of the matching rows |
| ArchivedToggle.SetFrom | src/components/archived-toggle.tsx:16 | `set` adds at most one pair |
| ArchivedToggle.Drop | src/components/archived-toggle.tsx:18-20 | the pairs kept are exactly those whose name is not removed, and there are no more of them than before |
| ArchivedToggle.DeleteParam | src/components/archived-toggle.tsx:18-20 | deleting never adds pairs, and exactly the pairs under other names remain |
| ArchivedToggle.DeleteValues | src/components/archived-toggle.tsx:18-20 | after a delete nothing is left under the name and other names keep their values |
| ArchivedToggle.SetHoldsValue | src/components/archived-toggle.tsx:16 | after a set the name holds exactly that one value |
| ArchivedToggle.DropAfterDelete | src/components/archived-toggle.tsx:18-20 | a delete leaves the pairs under other names untouched and in order |
| ArchivedToggle.DropAfterSet | src/components/archived-toggle.tsx:16 | a set leaves the pairs under other names untouched and in order |
| ArchivedToggle.Toggled | src/components/archived-toggle.tsx:13-22 | the toggled query has at most one pair more than before, and no more pairs when unchecked |
| ArchivedToggle.ToggleOutcome | src/components/archived-toggle.tsx:13-22 | checked gives archived=true once, unchecked no archived at all; page is always gone; every other pair is unchanged and in order |
| ArchivedToggle.SearchParams.Set | src/components/archived-toggle.tsx:16 | `set` rewrites the pairs in place as specified |
| ArchivedToggle.SearchParams.Delete | src/components/archived-toggle.tsx:18 | `delete` rewrites the pairs in place as specified |
| ArchivedToggle.HandleToggle | src/components/archived-toggle.tsx:13-22 | a fresh copy of the parameters is rewritten to the toggled query and the current ones are left alone |
| Nav.IsActive | src/components/nav-header.tsx:25-28 | the Invoices link is active on "/" and on paths beginning "/invoices"; any other link on paths beginning with its href |
| Nav.AtMostOneActive | src/components/nav-header.tsx:25-28 | the two links are never highlighted together |
| Nav.ActiveExamples | src/components/nav-header.tsx:25-28 | "/invoices/123" and "/" light up Invoices only, "/clients" Clients only, and "/clientsX" also lights up Clients |
| ClientSearch.Matches | src/app/clients/page.tsx:66-70 | the empty query matches every client |
| ClientSearch.FilterClients | src/app/clients/page.tsx:65-72 | the clients kept are exactly those whose lower-cased name, email or present company name contains the lower-cased query |
| ClientSearch.FilterAppend | src/app/clients/page.tsx:65 | the filter distributes over concatenation, so it keeps the original order |
| ClientSearch.EmptyQueryKeepsAll | src/app/clients/page.tsx:66-71 | the empty query keeps every client |
| ClientSearch.CaseInsensitive | src/app/clients/page.tsx:66-70 | queries that differ only in case select the same clients |
| ClientSearch.LowerQuery | src/app/clients/page.tsx:66 | lower-casing the query first changes nothing |
| ClientSearch.FilterSameTest | src/app/clients/page.tsx:65-72 | two queries that select the same clients filter any list alike |
| ClientSearch.NoCompanyNoMatch | src/app/clients/page.tsx:70 | a client without a company name is found by its name or email only |
| Backfill.GroupKeys | prisma/scripts/create-clients-from-invoices.ts:31-36 | `clientsByEmail` has a key exactly for each non-empty email some invoice carries, and lists exactly its keys |
| Backfill.GroupDistinct | prisma/scripts/create-clients-from-invoices.ts:31-36 | the insertion order lists no email twice |
| Backfill.GroupFirst | prisma/scripts/create-clients-from-invoices.ts:31-36 | each email maps to the first invoice that carries it |
| Backfill.GroupByEmail | prisma/scripts/create-clients-from-invoices.ts:31-36 | the grouping loop builds exactly the specified grouping |
| Backfill.UpsertIdKeys | prisma/scripts/create-clients-from-invoices.ts:40-54 | `emailToClientId` holds exactly the grouped emails |
| Backfill.UpsertClientKeys | prisma/scripts/create-clients-from-invoices.ts:41-51 | the clients table gains exactly the grouped emails |
| Backfill.UpsertKeeps | prisma/scripts/create-clients-from-invoices.ts:42-52 | an existing client is kept as it is (`update: {}`) and each email maps to the id of its client |
| Backfill.UpsertNew | prisma/scripts/create-clients-from-invoices.ts:44-49 | a new client carries the grouped invoice's name, email, phone and address and the assigned id |
| Backfill.LinkFacts | prisma/scripts/create-clients-from-invoices.ts:57-69 | when every carried email has a non-empty client id, `linked` counts exactly the invoices with an email, each points at its email's client, and only such invoices are linked |
| Backfill.CreatedClients | prisma/scripts/create-clients-from-invoices.ts:31-54 | after part 1 there is one client per distinct invoice email, existing clients are untouched, and a new one takes the first invoice's snapshot |
| Backfill.CreatedLinks | prisma/scripts/create-clients-from-invoices.ts:57-69 | after part 1 every invoice with an email points at its email's client and `linked` is the number of such invoices |
| Backfill.Fill | prisma/scripts/create-clients-from-invoices.ts:109-110 | a non-empty value is never overwritten |
| Backfill.FirstTruthy | prisma/scripts/create-clients-from-invoices.ts:104-111 | the first non-empty value in order, present iff one exists |
| Backfill.FillPhoneFacts | prisma/scripts/create-clients-from-invoices.ts:105-111 | a non-empty phone stays; an empty or null one becomes the first non-empty invoice phone, if any |
| Backfill.FillAddressFacts | prisma/scripts/create-clients-from-invoices.ts:106-111 | a non-empty address stays; an empty or null one becomes the first non-empty invoice address, if any |
| Backfill.UpdateFor | prisma/scripts/create-clients-from-invoices.ts:101-125 | a client without invoices gets no update; an update is for the client's own id and changes its phone or its address |
| Backfill.UpdateForFacts | prisma/scripts/create-clients-from-invoices.ts:101-125 | a client without invoices is skipped; an update keeps non-empty values and fills the rest from the first non-empty invoice value; no update means nothing could be filled |
| Backfill.UpdatesFacts | prisma/scripts/create-clients-from-invoices.ts:100-126 | at most one update per client, each the update its client calls for |
| Backfill.Store.Upsert | prisma/scripts/create-clients-from-invoices.ts:42-51 | an existing client is returned unchanged; otherwise one is created from the invoice snapshot with the new id |
| Backfill.Store.CreateClientsFromInvoices | prisma/scripts/create-clients-from-invoices.ts:28-70 | part 1 leaves the clients and links the specification prescribes and returns `linked` |
| Backfill.Store.UpsertGrouped | prisma/scripts/create-clients-from-invoices.ts:40-54 | the upsert loop produces the specified clients and `emailToClientId` |
| Backfill.Store.LinkInvoices | prisma/scripts/create-clients-from-invoices.ts:57-69 | the linking loop produces the specified links and count |
| Backfill.Store.FillMissingData | prisma/scripts/create-clients-from-invoices.ts:100-126 | part 2 writes exactly the specified updates in client order, applies each to the client row with its id, leaves the invoice links alone, and `updated` is the number of updates |
| Backfill.ApplyUpdate | prisma/scripts/create-clients-from-invoices.ts:119-122 | one update: the row with the update's id takes its phone and address, every other row is unchanged, and no row is added or removed |
| Backfill.ApplyAllFacts | prisma/scripts/create-clients-from-invoices.ts:100-126 | the updates of part 2 add and remove no client, keep every id, name and email, and leave a client that no update names as it was |
| Backfill.LastUpdateWins | prisma/scripts/create-clients-from-invoices.ts:119-122 | after an update for a client, that client's phone and address are the update's |
| Backfill.QuerySkipsOnlyEmptyStrings | prisma/scripts/create-clients-from-invoices.ts:78-126 | a client left out by the `phone: null` / `address: null` filter that the loop would still update has a phone or an address stored as "" |
| Backfill.FillFromInvoices | prisma/scripts/create-clients-from-invoices.ts:105-111 | the inner loop computes the specified phone and address |
| Text.TrimStart | src/lib/clients-validation.ts:29 | removes exactly the leading white space |
| Text.TrimEnd | src/lib/clients-validation.ts:29 | removes exactly the trailing white space |
| Text.TrimEmptyIffBlank | src/lib/clients-validation.ts:29 | `trim()` is empty iff the string is all white space |
| Text.FirstEntryTrimmed | src/middleware.ts:10 | the trimmed first entry of a split is a piece of the string without the separator, with no white space at either end |
| Text.Lower | src/app/clients/page.tsx:66 | lower-cases each ASCII letter and keeps every other character |
| Text.LowerIdempotent | src/app/clients/page.tsx:66-70 | lower-casing twice is lower-casing once |
| Text.Decimal | src/lib/invoice-number.ts:39 | `String(n)` is non-empty digits with no leading zero |
| Text.DecimalRoundTrip | src/lib/invoice-number.ts:39 | the value of `String(n)` is n |
| Text.LeadingZeros | src/lib/invoice-number.ts:39 | zero padding does not change the value of a digit string |
| Text.PadStart | src/lib/invoice-number.ts:39 | `padStart` left-pads up to the width and never truncates |
| Text.BeforeFirst | src/middleware.ts:10 | the text before the first separator, which it does not contain |

## Left out

- JavaScript string lengths count UTF-16 code units. The model counts characters, so lengths differ for characters outside the Basic Multilingual Plane.
- `toLowerCase` is modelled for ASCII letters only; Unicode case mapping is not modelled.
- Floating point is not modelled. Quantities and prices are `real`. `parseNum`/`parseFloat`, the form's running total and `String(number)` for stored line-item values (a parameter) are left out.
- Logging, `console` output, and the real sleep between transaction attempts are left out. The pauses appear only as values.
- Real concurrency is not modelled; every store is sequential state. For the counter table, only the four `Interleaving` schedules of other callers' writes during one first-use allocation are modelled: none, a row created before our INSERT, a row deleted before our read-back, and increments before our read-back. Writes interleaved with an existing row's single UPDATE are not modelled, since that statement is atomic.
- InvoiceNumber.NextSeedNumber: the seed's `findFirst` orders invoice numbers as strings (prisma/seed.ts:62-64). Once "INV-1000" exists it still reads back "INV-999", and issues 1000 again. The model takes the number read back as the parameter `last`, so the seed's continuation (SeedContinues) holds only while every number is below 1000.
- `checkRateLimit`'s implementation (src/lib/rate-limit.ts) is not modelled; its answers are the verdict parameter. Only the tier constants are modelled.
- InvoiceValidation.ValidateDueDate: an Invalid Date passes `validateDueDate` in the source, because `setHours` on it gives NaN and `NaN < x` is false (src/lib/validation.ts:45-49). `Moment` has no invalid value, so this case is not modelled.
- RequestGate.RateLimitKey: `token.sub as string` is a cast only (src/middleware.ts:38), so a token without `sub` rate-limits under the key "undefined". `Request.token` holds the subject itself, so a token without a subject is not modelled.
- The invoice and client server actions are left out; they are database calls and path revalidation.
- `getToken` (next-auth), bcrypt hashing, `crypto.randomUUID`, database-assigned ids and zod's email test are foreign code. Each appears as a parameter.
- zod's handling of non-string inputs and its `.optional()` absence of a key beyond `Missing` are not modelled. Inputs are strings or `Nullable`.
- Header names are assumed already lower-cased, as `Headers.get` normalises them.
- The route `matcher` configuration is left out, as are JSX rendering, router navigation and React effects.
- The seed and populate scripts are left out, except the seed's reading back of invoice numbers.
- JavaScript object spread with an explicitly `undefined` option is not modelled; options are either supplied or missing.
- Part 2 of the migration takes the clients the `findMany` query returns as its input. The query's filter is the `MissingData` predicate; the database query itself is not modelled.
- Backfill.ApplyUpdate: an update whose id names no row leaves the table unchanged, where Prisma's `update` throws. Part 2 only writes ids of rows it has just read, so the case does not arise there.
- Pagination.CalculatePaginationMeta: requires a page size of at least 1. The source divides by it, and its only caller passes a parsed size in 1..100.
- PageWindow.LargeWindow: the ellipsis iff-statements are proved only for a page within 1..totalPages, which is what the metadata supplies. For other pages only the ends and the middle are stated.
- LineItems.RemoveKeepsARow: requires unique ids (the ids come from UUIDs or the database). With duplicate ids removal can empty the list.
- Backfill.LinkFacts: requires every email an invoice carries to have a non-empty client id, and invoice ids to be distinct, as database ids are.
- Backfill.CreatedLinks: requires non-empty client ids and distinct invoice ids, as database ids are.
