# Tradeautobill invoicing core, modelled in Dafny

Tradeautobill is a Next.js service. A signed-in trader posts an invoice. The
service checks the invoice and the trader's plan quota, records one usage row,
signs the invoice with HMAC-SHA256 and hands it to an external document
workflow. The workflow later reports the job's progress through status
callbacks. Stripe webhooks move users between plans. The browser polls a job's
status and lists past invoices.

This project models that core, one Dafny module per source file:

| module | file | form |
|---|---|---|
| `Common` | (shared) | options, JSON parse outcomes, counting queries, `toLowerCase`, `includes`, `trim` |
| `InvoiceRoute` | `app/api/invoice/route.ts` | pure normalisation, validation and quota functions; `class Backend` (usage log, history table, outgoing requests) with `method Post` |
| `AccountRoute` | `app/api/account/route.ts` | UTC calendar and window starts, price-key mapping, plan resolution; `method Get` (read only) |
| `StatusCallback` | `app/api/status-callback/route.ts` | `VerifyHmac`, field extraction, row update; `class InvoiceTable` with `method Post` |
| `InvoiceStatusCallback` | `app/api/status/status-callback/route.ts` | keyed upsert; `class InvoiceStatusTable` with `method Post` |
| `JobComplete` | `app/api/job-complete/route.ts` | keyed upsert; `class WorkflowJobs` with `method Post` |
| `Tiers` | `lib/tiers.ts` | `GetTierForUser` |
| `StripeWebhook` | `app/api/stripe/webhook/route.ts` | price table, user lookups, metadata and profile writes; `class Accounts` with `method Post` |
| `WorkflowRunner` | `components/WorkflowRunner.tsx` | poller step function `Step`; `class Runner` whose handlers follow it |
| `InvoicesRoute` | `app/api/invoices/route.ts` | row mapping and `Get` |
| `Dashboard` | `app/dashboard/page.tsx` | search, sort, paging and status pill |
| `AccountPage` | `app/account/page.tsx` | `pct` |
| `HashRedirect` | `app/HashRedirect.tsx` | `encodeURIComponent` and the redirect decision |

External effects are parameters of the model:

- Timestamps are integer milliseconds since 1970-01-01T00:00:00Z. The status callback's clock is in seconds.
- HMAC-SHA256 in hex, `JSON.stringify`, `JSON.parse`, `Number` and hex decoding are function-valued parameters with no body.
- Every Supabase or Stripe answer is a parameter: an error message, a fault flag, a count reply, a write outcome or a fetch outcome.
- The store is a sequence (append-only logs) or a map (tables keyed by id).

Each file is modelled as written, and the files are not reconciled with each other:

- Tier names differ. The invoice route and the webhook use 'free', 'standard' and 'pro'. The account route uses 'Free' and 'Pro'. `AccountRoute.WebhookTiersGetFreeLimits` shows that the names the webhook writes get the account route's Free limits.
- Windows differ. The invoice route counts a trailing 24 hours and a trailing 30 days. The account route counts from UTC midnight and from the first of the UTC month.
- Counted tables differ. The invoice route counts the `usage` table. The account route counts the `invoices` table.
- No route checks status transitions. Every status write overwrites the previous one (`LastWriteWins`, `LaterCallbackOverwrites`).
- The poller's Refresh button clears what is shown but does not restart polling. The toggled flag is not a dependency of the effect (`WorkflowRunner.DoneIsFinal`).
- A failed poll's error message is never cleared by a later successful poll (`WorkflowRunner.ErrorSurvivesSuccess`).

## Model

| member | source | states |
|---|---|---|
| Common.CountSince | app/api/invoice/route.ts:52-57 | the exact count of a user's rows created at or after a start is at most the number of rows |
| Common.CountSinceAntitone | app/api/invoice/route.ts:77-81 | a later window start never counts more rows, so the daily count never exceeds the monthly one |
| Common.CountValue | app/api/account/route.ts:94-98 | an exact count reply gives the count of matching rows; a null count gives 0 |
| Common.ToLower | app/dashboard/page.tsx:49 | `toLowerCase` keeps the length and lowers each ASCII capital |
| Common.Trim | app/dashboard/page.tsx:49 | `trim` removes exactly the leading and trailing white space: the result is an infix whose cut-off ends are all white space and which itself neither starts nor ends with white space; it is empty exactly when the input is all white space |
| InvoiceRoute.NumberOr | app/api/invoice/route.ts:37-38 | `a ?? b ?? 0` on numbers: the first present number, else 0 |
| InvoiceRoute.DefinedNumber | app/api/invoice/route.ts:39-41 | a VAT rate is absent exactly when the field is undefined; `null` becomes 0 |
| InvoiceRoute.CustomerEmail | app/api/invoice/route.ts:31-33 | `customerEmail`, else `customer.email`, else ""; a non-empty result comes from one of the two fields |
| InvoiceRoute.NormalizePayload | app/api/invoice/route.ts:28-50 | items keep their count and order, a non-array `items` gives no items, the e-mail follows `CustomerEmail`, and the VAT rate is absent exactly when undefined |
| InvoiceRoute.NormalizedItemFallbacks | app/api/invoice/route.ts:35-42 | each item's quantity is `quantity`, else `qty`, else 0; its unit price is `unitPrice`, else `price`, else 0; its description defaults to "" |
| InvoiceRoute.EmailRegexIffShape | app/api/invoice/route.ts:132-134 | the e-mail regular expression accepts exactly the strings with no white space, one `@`, a non-empty local part and a `.` after the `@` that is neither first nor last in the domain |
| InvoiceRoute.LimitsForTier | app/api/invoice/route.ts:85-89 | 25/200 exactly for "standard", 100/1000 exactly for "pro", 3/10 for every other name; every tier's limits are at least the free ones |
| InvoiceRoute.TierOf | app/api/invoice/route.ts:142 | the metadata tier when truthy, otherwise "free"; never empty |
| InvoiceRoute.GetUsage | app/api/invoice/route.ts:76-83 | daily counts the trailing 24 hours, monthly the trailing 30 days, and daily is at most monthly |
| InvoiceRoute.CheckQuota | app/api/invoice/route.ts:144-145 | the request passes exactly when both counts are under their limits; the daily limit is reported first |
| InvoiceRoute.Admit | app/api/invoice/route.ts:108-145 | the answer for every input, in the handler's order: 500 for missing Supabase or workflow settings, 500 for an auth error, 401 without a user, 400 for unparsable JSON, 500 for a `null` body, 400 for a bad e-mail, 400 for no items, 500 for a failed count; then 429 with `CheckQuota`'s message when the quota says so, and otherwise admission with the caller's id, tier and normalised payload |
| InvoiceRoute.QuotaDecidesAdmission | app/api/invoice/route.ts:139-145 | with exact counts, a valid request is refused with "Daily limit reached" when the trailing 24 hours hold at least the daily limit, whatever the month holds; else with "Monthly limit reached" when the trailing 30 days hold at least the monthly limit; else admitted |
| InvoiceRoute.ValidationPrecedesQuota | app/api/invoice/route.ts:130-141 | a bad e-mail or an empty item list gets its 400 whatever the usage log and the count replies hold |
| InvoiceRoute.AdmittedStaysWithinLimits | app/api/invoice/route.ts:139-155 | with exact counts, the usage row added for an admitted request keeps both windows within the tier's limits |
| InvoiceRoute.ReplyJobId | app/api/invoice/route.ts:173-197 | an empty or unparsable reply gives a null job id; a reply that parses gives exactly its `jobId` (null when it has none) |
| InvoiceRoute.Backend.Post | app/api/invoice/route.ts:105-205 | a rejection or a failed usage insert writes and sends nothing; otherwise exactly one usage row is appended and kept, exactly one request is sent whose signature is the HMAC of its own body, a thrown fetch or non-2xx reply writes no history row, and a 2xx reply returns the reply's job id and appends one history row unless that insert fails |
| AccountRoute.CivilBackInMonth | app/api/account/route.ts:19 | within a month, stepping back k days lowers only the day of the month |
| AccountRoute.StartOfUtcDay | app/api/account/route.ts:15-17 | the start is at most t, more than t minus one day, and a multiple of 86 400 000 ms |
| AccountRoute.StartOfUtcMonth | app/api/account/route.ts:18-20 | the start is midnight of day 1 of t's UTC month, a whole day, and at most the start of t's day |
| AccountRoute.MapPriceToTier | app/api/account/route.ts:22-29 | a falsy key gives null; "Pro" exactly when the lowered key contains "pro"; "Free" exactly when it contains "free" and not "pro"; nothing else is produced |
| AccountRoute.LatestActive | app/api/account/route.ts:54-61 | the row returned is the user's active or trialing subscription with the latest period end, nulls first; none only when the user has no such row |
| AccountRoute.ResolveTier | app/api/account/route.ts:39-69 | a truthy profile tier wins with its renewal date; else an active subscription gives its mapped tier or "Pro"; else "Free"; the tier is never empty |
| AccountRoute.LimitsOf | app/api/account/route.ts:91 | "Pro" gets 50/1000 and every other name gets the Free limits 3/10 |
| AccountRoute.WebhookTiersGetFreeLimits | app/api/account/route.ts:9-13 | the names "standard" and "pro" written by the billing webhook get the Free limits here |
| AccountRoute.Get | app/api/account/route.ts:31-117 | an auth error gives 500 and no user 401; a count error gives 500 with its message; otherwise the plan, the UTC day and month starts, and counts and limits for them; today's count is at most the month's when both are exact |
| StatusCallback.VerifyHmac | app/api/status-callback/route.ts:13-35 | throws exactly when no secret is set; accepts exactly when the timestamp is finite and within 300 s and the decoded signature equals the decoded HMAC of `ts + "." + body` |
| StatusCallback.SignedCallbackVerifies | app/api/status-callback/route.ts:21-34 | a callback signed with the secret over the received bytes, with a timestamp at most 300 s away, is accepted |
| StatusCallback.StaleCallbackRefused | app/api/status-callback/route.ts:21-23 | a timestamp more than 300 s away is refused whatever the signature |
| StatusCallback.Extract | app/api/status-callback/route.ts:49-51 | the id is `id`, else `invoiceId`; the status is the lowered `status`, empty exactly when that is falsy; the PDF link is passed through |
| StatusCallback.ApplyStatus | app/api/status-callback/route.ts:62-65 | only the row with that id changes, only in status, PDF link and update time; no row is added |
| StatusCallback.RepeatedCallbackIdempotent | app/api/status-callback/route.ts:56-65 | repeating a callback changes only the update time |
| StatusCallback.LaterCallbackOverwrites | app/api/status-callback/route.ts:49-65 | a later callback replaces a "sent" status and its link; nothing orders statuses |
| StatusCallback.InvoiceTable.Post | app/api/status-callback/route.ts:37-69 | a bad signature gives 401, invalid JSON 400, a missing id or status 400, missing configuration or a store error 500, each with no write; an accepted callback updates its row exactly as `ApplyStatus` |
| InvoiceStatusCallback.Upsert | app/api/status/status-callback/route.ts:18-25 | the job's row is inserted or overwritten with the new status, link and time; every other job keeps its row |
| InvoiceStatusCallback.LastWriteWins | app/api/status/status-callback/route.ts:13-25 | two posts for one job leave the second one's row |
| InvoiceStatusCallback.DistinctJobsCommute | app/api/status/status-callback/route.ts:18-25 | posts for different jobs commute |
| InvoiceStatusCallback.InvoiceStatusTable.Post | app/api/status/status-callback/route.ts:5-33 | invalid JSON and a missing job id or status give 400, a store error 500, each with no write; success upserts the row |
| JobComplete.Upsert | app/api/job-complete/route.ts:27-34 | the job's row becomes the caller's status and user id; every other job keeps its row |
| JobComplete.AnyUserTakesOverJob | app/api/job-complete/route.ts:27-34 | any signed-in user's post replaces the owner of an existing job |
| JobComplete.WorkflowJobs.Post | app/api/job-complete/route.ts:8-42 | no user gives 401, invalid JSON and missing fields 400, a store error 500, each with no write; success writes one row holding the caller's id |
| Tiers.GetTierForUser | lib/tiers.ts:6-19 | a lookup error or a missing or empty tier gives "free"; otherwise the stored value; never empty |
| Tiers.UncheckedCast | lib/tiers.ts:18 | a stored name outside 'free', 'standard' and 'pro' is returned as is |
| Tiers.DeclaredWhenStoredDeclared | lib/tiers.ts:13-18 | when the store holds a declared name or nothing, the result is a declared name |
| StripeWebhook.PriceToTier | app/api/stripe/webhook/route.ts:14-17 | a price maps to a tier exactly when it is one of the two configured ids; the pro id wins when both are equal |
| StripeWebhook.EmailMatchIgnoresCase | app/api/stripe/webhook/route.ts:91 | the list scan's address comparison ignores the case of the checkout address |
| StripeWebhook.CheckoutEmail | app/api/stripe/webhook/route.ts:55 | the customer-details address, else the session's address, else ""; empty exactly when both are falsy |
| StripeWebhook.CheckoutUser | app/api/stripe/webhook/route.ts:78-96 | the `user_index` entry for the exact address wins; else, when the listing succeeds, a user is found exactly when some listed address matches ignoring case, and it is the first such user in the list |
| StripeWebhook.CustomerUser | app/api/stripe/webhook/route.ts:124-133 | a user is found exactly when some listed user carries the customer id, and it is the first such user in the list |
| StripeWebhook.MergeMeta | app/api/stripe/webhook/route.ts:22-25 | the tier is set; the customer id changes only when one is given |
| StripeWebhook.UpdateUser | app/api/stripe/webhook/route.ts:25 | only the named user's metadata changes |
| StripeWebhook.UpsertProfile | app/api/stripe/webhook/route.ts:28-33 | the user's profile gets the tier, the customer id or null, and the time; other columns and other profiles are kept |
| StripeWebhook.CancelUndoesCheckout | app/api/stripe/webhook/route.ts:98-136 | a checkout then a cancellation of the same customer leaves the user on 'free' in both places, still linked to the customer |
| StripeWebhook.Accounts.SetUserTierById | app/api/stripe/webhook/route.ts:20-34 | a thrown write ends the update, a refused one is ignored, and applied writes change the metadata and profile as above |
| StripeWebhook.Accounts.ProfileOwner | app/api/stripe/webhook/route.ts:114-122 | a profile is found exactly when the lookup succeeds and exactly one profile carries the customer id |
| StripeWebhook.Accounts.Post | app/api/stripe/webhook/route.ts:36-154 | a bad signature gives 400 and other events 200, with no change; a checkout with no address changes nothing; a checkout writes only when both user and tier are found; a cancellation downgrades the profile's owner, else the first user carrying the customer id; a thrown write gives 500 |
| WorkflowRunner.Start | components/WorkflowRunner.tsx:26-31 | an empty job id starts nothing; otherwise the first fetch starts at once |
| WorkflowRunner.ShownStatus | components/WorkflowRunner.tsx:43 | the job's status when truthy, otherwise 'unknown' |
| WorkflowRunner.Step | components/WorkflowRunner.tsx:30-62 | a reply after cancellation only ends the tick; a failure records its message and retries in 4000 ms; a status reply is shown and stops polling exactly on 'completed' or 'failed', else retries in 2000 ms; only a pending timer starts a fetch; cleanup clears the timer |
| WorkflowRunner.EmptyJobNeverPolls | components/WorkflowRunner.tsx:27-31 | with an empty job id nothing is ever fetched or shown |
| WorkflowRunner.CancelledIsInert | components/WorkflowRunner.tsx:41-62 | after cleanup nothing shown changes, no timer is pending and no fetch starts |
| WorkflowRunner.DoneIsFinal | components/WorkflowRunner.tsx:45-96 | after a terminal status polling never resumes, not even after Refresh |
| WorkflowRunner.ErrorSurvivesSuccess | components/WorkflowRunner.tsx:42-55 | a failed poll's message stays shown after a later successful poll |
| WorkflowRunner.PollingIsUnbounded | components/WorkflowRunner.tsx:30-56 | any number of non-terminal replies still leaves a fetch in flight |
| WorkflowRunner.Runner.constructor | components/WorkflowRunner.tsx:26-58 | mounting gives the state `Start(jobId)` |
| WorkflowRunner.Runner.OnReply | components/WorkflowRunner.tsx:36-55 | the settled fetch updates the component as `Step` says |
| WorkflowRunner.Runner.OnTimer | components/WorkflowRunner.tsx:30-35 | the pending timer starts the next fetch as `Step` says |
| WorkflowRunner.Runner.OnCleanup | components/WorkflowRunner.tsx:59-62 | cleanup sets `cancelled` and clears the timer as `Step` says |
| WorkflowRunner.Runner.OnRefresh | components/WorkflowRunner.tsx:90-96 | Refresh clears status, error and detail as `Step` says |
| WorkflowRunner.Runner.Drive | components/WorkflowRunner.tsx:26-96 | delivering events one by one ends in the state `Run` gives |
| InvoicesRoute.ToInvoice | app/api/invoices/route.ts:32-38 | `id` is the invoice number, `email` the customer address or null, `total` the stored total or 0 |
| InvoicesRoute.ToInvoices | app/api/invoices/route.ts:32 | one entry per row, in the same order |
| InvoicesRoute.OrderKept | app/api/invoices/route.ts:27-38 | rows that come newest first give invoices newest first |
| InvoicesRoute.InvoiceNumbersKept | app/api/invoices/route.ts:33 | every listed id is the invoice number of some row |
| InvoicesRoute.Get | app/api/invoices/route.ts:8-44 | an auth error gives 500, no user 401, a query error 500; null data gives an empty list; otherwise the mapped rows |
| Dashboard.Query | app/dashboard/page.tsx:49 | the query is the trimmed box text with each character lowered, and it is empty exactly when the box holds only white space |
| Dashboard.Filter | app/dashboard/page.tsx:52-55 | `Array.filter`: each row is kept as often as it was loaded when the test accepts it, and dropped otherwise |
| Dashboard.Select | app/dashboard/page.tsx:52-55 | keeps exactly the rows whose lowered id or address contains the query, each as often as it was loaded |
| Dashboard.Search | app/dashboard/page.tsx:49-56 | an empty query keeps every row; otherwise `Select` |
| Dashboard.SortRows | app/dashboard/page.tsx:57-64 | a permutation of the rows, sorted by the chosen key |
| Dashboard.InsertKeepsSorted | app/dashboard/page.tsx:57-64 | inserting a row into a sorted list keeps it sorted |
| Dashboard.Filtered | app/dashboard/page.tsx:48-66 | a sorted permutation of the searched rows |
| Dashboard.FilteredKeepsExactlyMatches | app/dashboard/page.tsx:48-66 | a row is listed exactly when it was loaded and matches, as often as it was loaded |
| Dashboard.OppositeOrders | app/dashboard/page.tsx:58-63 | each descending order is the reverse of its ascending order, up to ties |
| Dashboard.Visible | app/dashboard/page.tsx:69 | the first min(n, page·12) rows |
| Dashboard.NextPage | app/dashboard/page.tsx:68 | Next is offered exactly when more than page·12 rows are listed, and leads to page + 1 |
| Dashboard.NextShowsMore | app/dashboard/page.tsx:68-69 | Next is offered exactly when rows are hidden, and following it shows twelve more or all that remain |
| Dashboard.Pill | app/dashboard/page.tsx:132-141 | "Ready" exactly when the PDF link is truthy, otherwise "Pending" |
| Dashboard.OnInput | app/dashboard/page.tsx:86-170 | typing sets the query and resets to page 1; choosing an order keeps the page; Next adds one page |
| Dashboard.Shown | app/dashboard/page.tsx:48-69 | the table shows loaded rows only, sorted by the chosen key, never more than were loaded |
| Dashboard.EditShowsFirstPage | app/dashboard/page.tsx:91 | after typing a new search at most twelve rows show |
| AccountPage.Round | app/account/page.tsx:130 | `Math.round` gives the integer nearest its argument, halves up |
| AccountPage.RoundMonotone | app/account/page.tsx:130 | a larger argument never rounds lower |
| AccountPage.NoLimitIsZero | app/account/page.tsx:129 | no limit, or a limit of 0 or less, gives 0 |
| AccountPage.Pct | app/account/page.tsx:128-131 | no limit or a limit of 0 or less gives 0; the percentage never exceeds 100, is never negative for a non-negative use, and is exactly 100 once the limit is reached |
| AccountPage.PctCapped | app/account/page.tsx:130 | the percentage is at most 100, and exactly 100 once the limit is reached |
| AccountPage.PctMonotone | app/account/page.tsx:128-131 | nothing used gives 0, and using more never shows less |
| AccountPage.PctAsIntegers | app/account/page.tsx:128-131 | with a positive limit the percentage is `min(100, (200·used + limit) div (2·limit))` |
| HashRedirect.EncodeUriComponent | app/HashRedirect.tsx:18 | the encoding holds only unreserved characters and `%`, and is never shorter than its input; `EncodeConcat` and `DecodeEncode` state that it escapes character by character and is undone by `decodeURIComponent` |
| HashRedirect.EncodeConcat | app/HashRedirect.tsx:18 | encoding a concatenation is concatenating the encodings, so each character is escaped on its own |
| HashRedirect.DecodeEncode | app/HashRedirect.tsx:18 | `decodeURIComponent` (escapes read as UTF-8, overlong forms and surrogates refused) gives back exactly the encoded code, for every string |
| HashRedirect.UnreservedVerbatim | app/HashRedirect.tsx:18 | a code made of unreserved characters is passed on unchanged |
| HashRedirect.ReservedAscii | app/HashRedirect.tsx:18 | a reserved ASCII character becomes `%` and its two upper-case hex digits |
| HashRedirect.Redirect | app/HashRedirect.tsx:11-27 | no redirect without a window or on `/confirm`; a truthy code goes to `/confirm?code=` and its encoding; else a token fragment goes to `/confirm` plus the fragment; else nothing |
| HashRedirect.TargetsConfirm | app/HashRedirect.tsx:16-26 | every target starts with `/confirm`, and an encoded code adds no `&`, `#`, `=` or `/` |
| HashRedirect.CodeBeforeHash | app/HashRedirect.tsx:16-26 | a code wins over a token fragment, and the fragment is forwarded verbatim |

## Left out

- Network, database and Stripe calls: their answers are parameters. The crypto primitives (SHA-256, HMAC, hex decoding, `timingSafeEqual`'s constant time) are uninterpreted functions, and tags are compared by sequence equality.
- The count-then-insert race between two simultaneous invoice submissions: each request is modelled as one atomic step.
- InvoiceRoute.Backend.Post: the retry of a failed count or insert with the `user_id` column is collapsed into one outcome per query. The raw `n8n` echo field of the success reply and the text of the 502 `error` field are not modelled.
- StatusCallback.Extract: the callback's `id`, `invoiceId`, `status` and `pdfUrl` are taken to be strings or absent. `String()` of a numeric or boolean status, a numeric id, and a body that is JSON but not an object (which the handler answers with 400 "missing id") are not modelled.
- InvoiceStatusCallback.InvoiceStatusTable.Post and JobComplete.WorkflowJobs.Post: a body that is JSON but neither an object nor `null` (its fields read as undefined, so the handler answers 400) is not modelled; nor are non-string field values.
- InvoiceRoute.NormalizePayload: fields are taken to have the JSON types the handler expects. `String()` and `Number()` of other types, a top-level body that is not an object, and NaN quantities are not modelled.
- Common.ToLower: only ASCII letters are lowered; the rest of Unicode case mapping is not modelled.
- Date parsing, `toISOString`, locale formatting, invalid dates and the limits of the JavaScript `Date` range: timestamps are unbounded integers.
- AccountRoute.LimitsOf: a tier named after an `Object.prototype` member (such as "toString") would find that member instead of the Free limits; this is not modelled.
- AccountRoute.Get: a failed profile or subscription lookup is read as no row, as the handler ignores those errors.
- StripeWebhook.PriceToTier: prototype member names used as price ids are not modelled. An unset price variable is the key "undefined", which the configuration parameter can express.
- StripeWebhook.CheckoutUser: `listUsers` returns one page of users; the model's user list is that page.
- StripeWebhook.Accounts: `user_index` is a map, so one address names at most one user.
- StripeWebhook.Accounts.Post: `constructEvent` and the signature check are one parameter, `None` for a bad signature.
- JobComplete.WorkflowJobs.Post: the conflict key is taken to be `job_id`; row-level security on the caller's client is not modelled.
- WorkflowRunner: one run of the effect for one job id is modelled; a change of job id, the debug `markComplete` button and the fetch's error text are not (the message is a parameter).
- Dashboard.SortRows: the order among rows with equal keys is not stated; only sortedness and the permutation are proved.
- Dashboard: the initial load of `/api/account` and `/api/invoices`, and the error and loading states, are left out.
- AccountPage.Pct: numbers are exact rationals, so floating-point rounding of `used / limit * 100` is not modelled.
- HashRedirect.EncodeUriComponent: strings are sequences of Unicode scalar values, so lone surrogates (which make `encodeURIComponent` throw) do not arise.
- UI rendering, styles and the pages and routes outside the files above.
