# Billing reconciliation of the lead-capture system, in Dafny

This project models the part of the lead-capture system that turns payment
events and referrals into stored state, and proves properties of that model:

- **Paystack.** The Paystack wrapper covers the sandbox-key guard, the
  webhook signature check and the requests it sends. HMAC-SHA512 is an
  uninterpreted keyed hash.
- **Subscriptions.** Two paths write subscription state: the webhook
  (`charge.success` / `charge.failed`) and the browser's verification
  callback.
- **Commission notifier.** This covers the eligibility check, the bounded
  retry loop with its response classification and backoff, and the
  `commission_notifications` audit log. The log is an upsert on
  (`user_id`, `payment_reference`), and it is what makes the notifier
  idempotent. A sweep re-drives the failed rows, and the cron route guards
  the sweep.
- **Sign-up.** Profile creation has a write-once referrer. The default
  tracking link has a bounded search for a free slug. The sign-in callback
  runs the two in order.
- **Request validators.** Checkout initialisation has the price table and
  the Early Access cap. The notifications route parses the bearer token,
  lists notifications and marks them read.
- **Public tracker page.** This covers the lead-source classifier and the
  lead form's submit handler.

## How the model is built

- **The store.** The store is a `Database` object (module `Store`) with four
  fields:
  - `profiles` is a map keyed by the `user_id` column. Each row also holds
    its `id` column.
  - `commissions` is a sequence in insertion order, which stands in for
    `created_at` order.
  - `links` and `notifications` are sequences.
- **Operations.** Each operation that writes the store is a method with
  `modifies db`. It is proved against a function on `Tables`, and the
  properties are lemmas about that function.
- **Keys.** Each operation filters the profiles by the key the code uses:
  - the webhook, verification and checkout routes use `id`
    (`UpdateWhereId`, `ProfileById`);
  - the affiliate module and `createProfile` use `user_id`
    (`UpdateWhereUserId`, map lookup).
- **Inputs standing in for the outside world.** Everything outside the
  program is an input:
  - the affiliate endpoint is an oracle `nat -> Attempt`, indexed by the
    attempt counter;
  - Paystack's replies are values;
  - every query's store error is a boolean;
  - the clock is `now`;
  - `Math.random` slugs and reference suffixes are oracles;
  - `JSON.parse` in the webhook is a function parameter;
  - the HMAC is a function parameter.
- **Waits and replies.** Backoff waits are recorded as the sequence of
  delays, not performed. Route replies are (status, tag) pairs or
  redirects.
- **JavaScript string built-ins.** Module `Text` models them on
  `seq<char>`: `trim` (the ECMAScript whitespace set), `toLowerCase`,
  `includes`, `startsWith`, `split`, `.length` in UTF-16 units,
  `parseInt(_, 10)`, `String(n)`, UTF-8, lower-case hex and
  `encodeURIComponent`.

## Where the code and its own comments differ

The model follows the code. On these points what the code does is not what
its comments, or the contract between the routes, lead one to expect, and a
lemma states what the code does:

- **Permanent rejections are retried, exhausted rows are not.** The 404 and
  400/401 branches are marked "don't retry" (`lib/affiliate.ts:210`, `:227`),
  yet they are stored as `failed` with the current counter, so a rejection
  on the first attempt (`retry_count = 0`) is picked up again by the sweep
  (`Affiliate.RejectedRowIsReselected`). Conversely, the sweep is meant to
  retry failed notifications (`lib/affiliate.ts:375`), but a row that used
  up its three in-line attempts is stored with `retry_count = 3`, and the
  sweep's `retry_count < 3` filter never selects it
  (`Affiliate.ExhaustedRowIsNeverSelected`).
- **`retry_count` can go down.** The column is overwritten with the new
  call's counter rather than accumulated, so a row that is re-driven and
  rejected at once drops back to 0 (`Affiliate.RetryCountCanDecrease`).
- **Backoff delays.** The comment at `lib/affiliate.ts:249` announces waits of
  1 s, 2 s, 4 s, 8 s. The counter is incremented before the delay is
  computed, so the waits are 2000 ms and then 4000 ms, and with three
  attempts there is no third wait (`Affiliate.RetryLoopFromStart`).
- **Fields an audit write leaves out.** The record type
  (`lib/affiliate.ts:37-47`) treats `response_data` and `error_message` as
  per-attempt results. A field left `undefined` is not sent, so on conflict
  the stored value from an earlier attempt survives (`Store.UpsertFacts`).
- **Empty payment reference.** The reference is the idempotency key
  (`lib/affiliate.ts:30`, `:145`). With no payment reference the check
  looks under the empty reference, but the row is written under a
  generated `LCS_…` reference, so a second call posts again
  (`Affiliate.EmptyReferenceIsNotIdempotent`).
- **Two keys for one user.** The billing routes treat the user as a
  profile's `id`: checkout looks the user up with `.eq('id', userId)`
  (`app/api/init-subscription/route.ts:28`) and sends that value as
  `metadata.user_id` (`:75`), and the webhook and the verification route
  update `.eq('id', userId)` (`app/api/paystack-webhook/route.ts:37`,
  `app/api/verify-subscription/route.ts:42`). Sign-up and the affiliate
  module key the same table on `user_id` (`lib/db.server.ts:19`,
  `lib/affiliate.ts:309`). An event naming a `user_id` that is not also an
  `id` changes nothing (`PaystackWebhook.UnmatchedIdChangesNothing`). The
  webhook sets only `subscription_active` and `subscription_expires_at`:
  unlike the verification route it does not record the plan, and it
  triggers no commission.
- **Write-once referrer.** `lib/db.server.ts:7` promises never to overwrite
  a referrer. The promise depends on the existence query: a failed query
  reads as "no profile", and a given referrer then replaces the stored one
  (`DbServer.LookupFaultOverwritesReferrer`).
- **Repeated sign-in.** Each successful sign-in adds another default link;
  there is no per-user check (`AuthCallback.RepeatedSignInAddsTwoLinks`).

## Model

| member | source | states |
|---|---|---|
| Common.OrElse | app/api/verify-subscription/route.ts:50 | `a \|\| b` on optional strings: the first operand exactly when it is present and non-empty, otherwise the fallback |
| Store.ApplyPatchIdempotent | app/api/paystack-webhook/route.ts:36 | a profile update writes absolute values, so applying the same patch twice equals applying it once |
| Store.UpdateWhereIdFacts | app/api/paystack-webhook/route.ts:34-37 | `update(u).eq('id', id)` keeps the table valid and its keys, changes exactly the rows whose `id` matches, and changes them by the patch only |
| Store.UpdateWhereIdIdempotent | app/api/verify-subscription/route.ts:39-42 | replaying an update keyed on `id` yields the table one update gives |
| Store.UpdateWhereUserIdFacts | lib/affiliate.ts:360-367 | `update(u).eq('user_id', userId)` keeps the table valid, touches only that user's row and applies exactly the patch to it |
| Store.Lookup | lib/affiliate.ts:57-62 | the select on (`user_id`, `payment_reference`) returns a stored row with that key, and none only when no row has it |
| Store.LookupFindsEveryRow | lib/affiliate.ts:57-62 | with one row per key, the select finds every stored row under its own key |
| Store.UpsertFacts | lib/affiliate.ts:79-97 | the upsert on (`user_id`, `payment_reference`) keeps keys unique, merges into the key's row or appends a new one, keeps every other key's row and every row's position, and keeps stored values for fields the write omits |
| Store.FailedBelow | lib/affiliate.ts:379-384 | the select `status = 'failed'` and `retry_count < max` returns only such rows of the table |
| Store.FailedBelowConcat | lib/affiliate.ts:379-384 | the filter distributes over concatenation, so the kept rows stay in table order, which stands in for `created_at` ascending |
| Store.FailedBelowComplete | lib/affiliate.ts:379-384 | every `failed` row under the bound is among those selected |
| Text.Trim | components/PublicTrackerClientFixed.tsx:53-54 | `trim()` has no ECMAScript whitespace at either end and is empty exactly when the input is all whitespace |
| Text.TrimIsInfix | components/PublicTrackerClientFixed.tsx:27 | trimming removes characters only at the ends: the result is a contiguous run of the input |
| Text.TrimIdempotent | app/api/notifications/route.ts:7 | trimming a trimmed string changes nothing |
| Text.SkipSpaces | app/api/retry-commissions/route.ts:45 | the scan for the first non-blank (which `parseInt` skips to) stays within the string |
| Text.SkipSpacesFacts | app/api/retry-commissions/route.ts:45 | everything skipped is whitespace and the scan stops at a non-blank or at the end |
| Text.BackSpaces | components/PublicTrackerClientFixed.tsx:16 | the end of the text once trailing whitespace is dropped lies within the bounds |
| Text.BackSpacesFacts | components/PublicTrackerClientFixed.tsx:16 | everything dropped from the end is whitespace, and what is kept ends in a non-blank |
| Text.TrimStartFixed | app/api/retry-commissions/route.ts:45 | a string that starts with a non-blank is unchanged by skipping leading whitespace |
| Text.LowerChar | components/PublicTrackerClientFixed.tsx:16 | a lower-cased character is never an upper-case ASCII letter |
| Text.UpperChar | components/PublicTrackerClientFixed.tsx:28 | an upper-cased character is never a lower-case ASCII letter |
| Text.ToLower | components/PublicTrackerClientFixed.tsx:16 | `toLowerCase()` keeps the length and lower-cases each character in place |
| Text.BeforeFirst | lib/db.server.ts:25 | `split('@')[0]` is the longest prefix without '@', followed in the input by '@' when it is shorter than the input |
| Text.DashesToSpaces | components/PublicTrackerClientFixed.tsx:27 | `replace(/[-_]/g, ' ')` keeps the length, turns each '-' and '_' into a space and keeps every other character |
| Text.Utf16Length | components/PublicTrackerClientFixed.tsx:56-60 | `.length` counts UTF-16 units: between one and two per code point |
| Text.DigitChar | lib/affiliate.ts:228 | a digit's character is a decimal digit whose value is the digit |
| Text.NatToString | lib/affiliate.ts:154 | `String(n)` of a non-negative integer is a non-empty string of decimal digits |
| Text.DigitsRoundTrip | lib/affiliate.ts:228 | the digits `String(n)` writes have the value n |
| Text.LeadingDigits | app/api/retry-commissions/route.ts:45 | the run `parseInt` reads is the longest prefix of decimal digits |
| Text.LeadingDigitsOfDigits | app/api/retry-commissions/route.ts:45 | on a string of digits that run is the whole string |
| Text.ParseInt | app/api/retry-commissions/route.ts:45 | `parseInt(s, 10)` is NaN exactly when no digit follows the leading whitespace and optional sign |
| Text.ParseIntRoundTrip | app/api/retry-commissions/route.ts:45 | `parseInt` reads back the number `String(n)` writes |
| Text.Utf8Char | lib/paystack.ts:89 | one code point encodes to one to four bytes, an ASCII one to itself, any other to a lead byte of at least 0xC0 |
| Text.Utf8Encode | lib/paystack.ts:86 | `Buffer.from(s)` has at least one byte per code point |
| Text.AsciiBytes | lib/paystack.ts:89 | the bytes of an ASCII string are its code points, one per character |
| Text.Utf8OfAscii | lib/paystack.ts:89 | UTF-8 of an ASCII string is its code points |
| Text.Utf8MatchesAscii | lib/paystack.ts:89 | a string whose UTF-8 bytes equal those of an ASCII string is that string, so comparing the buffers compares the strings |
| Text.LowerHexDigit | lib/paystack.ts:87 | a nibble's hex digit is a lower-case hex character |
| Text.UpperHexDigit | lib/paystack.ts:66 | a percent-escape digit is a digit or an upper-case A-F |
| Text.HexEncode | lib/paystack.ts:87 | `digest('hex')` is two lower-case hex characters per byte, all ASCII |
| Text.HexValue | lib/paystack.ts:87 | a character has a hex value exactly when it is a lower-case hex digit, and that value's digit is the character |
| Text.HexRoundTrip | lib/paystack.ts:87 | decoding the hex text of a byte string gives the bytes back |
| Text.HexEncodeInjective | lib/paystack.ts:87 | distinct digests have distinct hex texts |
| Text.PercentBytes | lib/paystack.ts:66 | three characters per byte, each unreserved or '%' |
| Text.EncodeURIComponent | lib/paystack.ts:66 | the encoding is never shorter than its input |
| Text.EncodeURIComponentIsSafe | lib/paystack.ts:66 | the encoding holds only unreserved characters and '%', so no '/', '?' or '#' |
| Text.EncodeURIComponentIdentity | lib/paystack.ts:66 | the encoding is the input exactly when every character is unreserved |
| Paystack.AssertSandboxKey | lib/paystack.ts:8-12 | returns exactly when the key starts with `sk_test_`, and throws otherwise |
| Paystack.TimingSafeEqual | lib/paystack.ts:88-92 | throws exactly when the buffer lengths differ, and is true exactly when the buffers are equal |
| Paystack.SignatureAcceptedIff | lib/paystack.ts:82-93 | with a sandbox key the check never throws and is true exactly when the signature is present, non-empty and equal to the lower-case hex HMAC of the raw body |
| Paystack.AcceptedSignatureDecodesToDigest | lib/paystack.ts:85-89 | an accepted signature decodes to the HMAC digest of the body |
| Paystack.InitializeTransaction | lib/paystack.ts:25-58 | a request is sent exactly after the key guard passes, with the body fields as given, the currency when non-empty, the initialize URL and the bearer key; the call returns exactly on an OK reply, and then returns its `data` |
| Paystack.VerifyTransaction | lib/paystack.ts:64-77 | a GET to the verify URL with the bearer key is sent exactly after the key guard passes; it returns exactly on an OK reply, and then returns its `data` |
| Paystack.VerifyUrlIsOneSegment | lib/paystack.ts:66 | the verify URL is the fixed prefix followed by the encoded reference; that segment holds no '/', '?' or '#' and equals the reference exactly when the reference is all unreserved characters |
| Paystack.NonSandboxKeyStopsEverything | lib/paystack.ts:32 | with a non-sandbox key, signature verification, initialisation and verification each throw the sandbox error and send nothing |
| PaystackWebhook.Post | app/api/paystack-webhook/route.ts:10-55 | the handler's reply and new tables are those of the webhook function on the old tables |
| PaystackWebhook.WebhookTouchesOnlyProfiles | app/api/paystack-webhook/route.ts:10-55 | only the profiles change, only on a 200, and every reply is 200, 401 or 500 |
| PaystackWebhook.BadSignatureIsRejected | app/api/paystack-webhook/route.ts:12-17 | a missing signature, or one other than the body's hex HMAC, gives 401 and no change, whatever the body parses to |
| PaystackWebhook.UnattributedEventsChangeNothing | app/api/paystack-webhook/route.ts:19-30 | with a valid signature a body that does not parse gives 500, and one without `metadata.user_id` gives 200; neither changes anything |
| PaystackWebhook.AttributedEventIsAccepted | app/api/paystack-webhook/route.ts:32-50 | with a valid signature and a `metadata.user_id`, every event is answered 200; the profiles become the event's transition, or stay as they were when the update fails, since its error is never inspected |
| PaystackWebhook.ApplyEventFacts | app/api/paystack-webhook/route.ts:32-48 | `charge.success` sets exactly `subscription_active = true` and the 30-day expiry on the rows with that `id`; `charge.failed` sets only `subscription_active = false`; other events change nothing; other rows are untouched and the table stays valid |
| PaystackWebhook.WebhookReplayIsIdempotent | app/api/paystack-webhook/route.ts:32-50 | redelivering the same signed event at the same clock gives the same reply and the same tables |
| PaystackWebhook.UnmatchedIdChangesNothing | app/api/paystack-webhook/route.ts:37 | an event whose user id is no row's `id` changes nothing |
| PaystackWebhook.LastEventWins | app/api/paystack-webhook/route.ts:32-44 | success then failure leaves the row inactive with the first expiry; failure then success leaves it active with the second expiry |
| VerifySubscription.Get | app/api/verify-subscription/route.ts:11-56 | the handler's reply, provider request and new tables are those of the verification function |
| VerifySubscription.VerifyOutcomes | app/api/verify-subscription/route.ts:14-51 | a missing reference gives 400 before any lookup; the tables change only on the redirect, which goes to `<origin>/dashboard?subscription=success`; every status is 307, 400, 402 or 500 |
| VerifySubscription.UnpaidOrUnattributedChangesNothing | app/api/verify-subscription/route.ts:21-34 | a status other than 'success' gives 402 and a missing `metadata.user_id` gives 400, without any change |
| VerifySubscription.UpdateErrorIsServerError | app/api/verify-subscription/route.ts:39-47 | a paid, attributed lookup whose update fails is answered 500 with no redirect and no change |
| VerifySubscription.ActivationFacts | app/api/verify-subscription/route.ts:27-51 | on success the rows with that `id` get exactly `subscription_active = true`, the 30-day expiry and the plan, `Standard` by default; other rows are unchanged; the reply redirects |
| VerifySubscription.ActivationPathsCommute | app/api/verify-subscription/route.ts:39-42 | a webhook activation and a verification activation for the same user and clock commute |
| Affiliate.ResolveConfig | lib/affiliate.ts:5-19 | the URL is `AFFILIATE_API_URL` when set, else the production or local URL by `NODE_ENV`, so never empty; the secret is the variable or '' |
| Affiliate.ConfigCompleteIffSecret | lib/affiliate.ts:136-140 | the configuration check passes exactly when the secret is set and non-empty |
| Affiliate.HasCommissionBeenNotifiedIff | lib/affiliate.ts:53-71 | the check is true exactly when the query succeeds and a `success` row is stored for (user, reference) |
| Affiliate.RecordCommissionNotification | lib/affiliate.ts:76-102 | the table after the write is the upsert of the row, or is unchanged when the store errs |
| Affiliate.RecordAttemptFacts | lib/affiliate.ts:76-102 | after a write the pair's row carries the written status, retry count and referrer, and any error or response sent; other pairs and the other tables are untouched; keys stay unique |
| Affiliate.MarkCommissionNotified | lib/affiliate.ts:359-372 | the profiles after the call are those with the user's row flagged and timestamped, or unchanged when the store errs |
| Affiliate.ShouldNotifyAffiliate | lib/affiliate.ts:303-357 | a negative answer carries no fields; a positive one exists only for a stored row and carries its referrer, email, plan type and name |
| Affiliate.ShouldNotifyAffiliateIff | lib/affiliate.ts:312-356 | eligible exactly when the query succeeds, the row exists, the trimmed referrer is non-blank, the subscription is active, the commission is not yet flagged and the email has '@'; the plan type is `Professional` exactly for plan 'Professional' |
| Affiliate.Pow2 | lib/affiliate.ts:251 | a power of two is at least 1 |
| Affiliate.BackoffDelay | lib/affiliate.ts:251 | `min(1000 * 2^retryCount, 10000)` lies between 1000 and 10000 ms |
| Affiliate.RetryLoopFacts | lib/affiliate.ts:165-279 | from any state the loop stops within the ceiling, exhausts exactly at 3, retried only transient attempts, and stops on a 2xx (keeping its body) or on a 404/400/401 (keeping its error); an exhausted run keeps the last attempt's error |
| Affiliate.RetryLoopDelays | lib/affiliate.ts:250-276 | the loop waits one backoff after each transient failure that another attempt follows, and nothing else |
| Affiliate.RetryLoopTransientStep | lib/affiliate.ts:243-278 | a transient attempt moves the loop to the next counter with that attempt's error and, unless it was the last, one more backoff |
| Affiliate.RetryLoopFromStart | lib/affiliate.ts:165-279 | a call makes one to three POSTs, waits one backoff less than it posts, and those waits are 2000 then 4000 ms; it exhausts exactly when all three attempts are transient |
| Affiliate.LoopStopsAtFirstFinalAttempt | lib/affiliate.ts:187-241 | the first non-transient attempt ends the loop: k + 1 POSTs, delivery with the response on a 2xx, rejection with its error on a 404/400/401 |
| Affiliate.UniqueReference | lib/affiliate.ts:154 | the reference is never empty: the payment reference when given, otherwise an `LCS_` reference |
| Affiliate.Repeat | lib/affiliate.ts:175-181 | n copies of the payload, one per POST |
| Affiliate.PostWithRetries | lib/affiliate.ts:165-279 | the imperative loop ends where the loop function ends and has posted the payload once per attempt made |
| Affiliate.NotifyAffiliateSystem | lib/affiliate.ts:127-295 | the method's result, POSTs, delays and new tables are those of the notifier function on the old tables |
| Affiliate.NotifyPostsIffReady | lib/affiliate.ts:136-163 | a call POSTs exactly when the configuration is complete and no success row exists; otherwise nothing is posted, waited or written and it fails only for missing configuration; when it posts, it sends the same payload one to three times |
| Affiliate.NotifyExhausted | lib/affiliate.ts:243-294 | three transient failures give exactly three POSTs, waits of [2000, 4000], failure with the last error, and one `failed` row with `retry_count = 3`; profiles untouched |
| Affiliate.NotifyRejected | lib/affiliate.ts:209-241 | a 404/400/401 after k transient failures gives k + 1 POSTs, k waits, and one `failed` row with `retry_count = k` and the error; profiles untouched |
| Affiliate.NotifyDelivered | lib/affiliate.ts:187-206 | a 2xx after k transient failures gives success, k + 1 POSTs, one `success` row with `retry_count = k` and the response, then `commission_notified` on the profile |
| Affiliate.NotifyProfilesChangeOnlyOnDelivery | lib/affiliate.ts:200 | profiles change only on a delivered call; no call touches links or in-app notifications |
| Affiliate.NotifyIdempotent | lib/affiliate.ts:145-150 | after a delivered, recorded call, a later call for the same user and reference returns success with no POST and no write |
| Affiliate.EmptyReferenceIsNotIdempotent | lib/affiliate.ts:146-154 | with an empty payment reference a second call POSTs again |
| Affiliate.SelectRetryable | lib/affiliate.ts:379-385 | the sweep selects the oldest retryable rows: exactly min(limit, number of `failed` rows with `retry_count < 3`) of them, and they are the first such rows in table order |
| Affiliate.SweepPrefixStep | lib/affiliate.ts:394-415 | one more row of the sweep applies that row's re-check and notify to the tables the earlier rows left |
| Affiliate.RetryFailedCommissions | lib/affiliate.ts:378-418 | the method's count, POSTs and new tables are those of the sweep function on the old tables |
| Affiliate.SweepPrefixBounded | lib/affiliate.ts:392-417 | after n rows the count is at most n and at most 3n POSTs were made |
| Affiliate.RetryRowPostsAtMostThree | lib/affiliate.ts:397-410 | one swept row POSTs at most three times; when the user no longer qualifies it is skipped: no POST, no write, not counted |
| Affiliate.SweepBounded | lib/affiliate.ts:378-418 | the count is at most `limit`, at most 3 POSTs per selected row, and a failed select returns 0 with no change |
| Affiliate.ExhaustedRowIsNeverSelected | lib/affiliate.ts:282-294 | a row left exhausted by an in-line call is never selected by the sweep |
| Affiliate.RejectedRowIsReselected | lib/affiliate.ts:209-224 | a row rejected on its first attempt is stored with `retry_count = 0`, so the sweep filter keeps it, and a sweep whose limit covers every retryable row selects it |
| Affiliate.RetryCountCanDecrease | lib/affiliate.ts:230-239 | re-driving a stored row that is rejected at once resets its `retry_count` to 0 and keeps its `created_at` |
| DbServer.CreateProfile | lib/db.server.ts:9-53 | the method's returned row and new tables are those of the profile-creation function |
| DbServer.CreateProfileFacts | lib/db.server.ts:22-50 | one row per user and a valid table: the returned row is stored under the user, with the email and the full name, or the part of the email before '@'; other users' rows are unchanged; an upsert error returns null and changes nothing |
| DbServer.UpsertProfileFacts | lib/db.server.ts:38-45 | the upsert on `user_id` keeps the table valid and changes only that user's row, which then carries the email and name sent |
| DbServer.ReferrerIsWriteOnce | lib/db.server.ts:29-36 | a referrer already stored and seen is kept whatever is given; a given referrer is stored when none was; without one the stored referrer is kept |
| DbServer.LookupFaultOverwritesReferrer | lib/db.server.ts:16-32 | when the existence query fails, a given referrer replaces the stored one |
| DbServer.SlugSearchFacts | lib/db.server.ts:61-78 | at most ten queries; every earlier attempt met an existing slug; an accepted slug is the last drawn and, unless its query failed, no link had it; none is accepted only after ten collisions |
| DbServer.CreateDefaultTrackingLink | lib/db.server.ts:59-109 | the method's link and new tables are those of the link function, and its query count is the search's |
| DbServer.CreateLinkFacts | lib/db.server.ts:80-108 | the call appends exactly one default, active link for the user with no target URL and a slug that was free unless its query failed, or adds nothing and returns null |
| DbServer.AllSlugsTakenInsertsNothing | lib/db.server.ts:80-83 | ten collisions give null and no insert |
| AuthCallback.Post | app/api/auth/callback/route.ts:9-33 | the handler's reply, records, query count and new tables are those of the callback function |
| AuthCallback.CallbackReplies | app/api/auth/callback/route.ts:11-32 | an unparsable body gives 500 and a missing `userId` or `email` gives 400, neither touching the store; every reply is 201, 400 or 500; 201 exactly when both records are returned |
| AuthCallback.CallbackNeverSetsReferrer | app/api/auth/callback/route.ts:12-18 | every stored referrer stays as it was and a created profile has none, whatever the body carries |
| AuthCallback.FailuresAreSequenced | app/api/auth/callback/route.ts:18-26 | a profile failure gives 500 with no change and no slug query; a link failure gives 500, keeps the written profile and adds no link |
| AuthCallback.SuccessAppendsOneLink | app/api/auth/callback/route.ts:23-28 | on 201 the reply carries the stored profile and the one default, active link appended for the user |
| AuthCallback.RepeatedSignInAddsTwoLinks | app/api/auth/callback/route.ts:23 | two successful sign-ins add two default links for the user |
| InitSubscription.PriceOf | app/api/init-subscription/route.ts:56-60 | the lookup has an amount exactly for 'Early Access' and 'Standard', and is missing exactly for names that are neither these nor inherited object members |
| InitSubscription.ProfileById | app/api/init-subscription/route.ts:25-36 | a found profile is a stored row with that `id`; "not found" exactly when the query succeeds and no row has that `id` |
| InitSubscription.PriceTable | app/api/init-subscription/route.ts:56-63 | 49900 for Early Access, 99900 for Standard, missing for other plain names, and an inherited value for `constructor` |
| InitSubscription.ValidationOrder | app/api/init-subscription/route.ts:18-63 | missing fields give 400; then a lookup error 500 or no user 404; then, for Early Access, a count error 500 or 409 at ten; then an unknown plan 400; none sends a request |
| InitSubscription.SentRequestShape | app/api/init-subscription/route.ts:66-81 | a request is sent only past every check, with the plan's price, the profile's email, callback `<origin>/api/verify-subscription`, metadata `{user_id, plan}` and currency KES; a 200 carries the provider's `authorization_url` |
| InitSubscription.EarlyAccessCapIsHardStop | app/api/init-subscription/route.ts:39-52 | at ten active Early Access rows no Early Access request is sent; a Standard checkout does not depend on the count query |
| InitSubscription.InitThenVerifyActivatesFoundRow | app/api/init-subscription/route.ts:70-79 | when the provider echoes the metadata sent and reports success, verification activates the row this route found, with the plan bought |
| RetryCommissions.Authorized | app/api/retry-commissions/route.ts:37 | with no secret every request passes; with one, exactly a header equal to `Bearer <secret>` passes |
| RetryCommissions.MinWith50 | app/api/retry-commissions/route.ts:45 | `Math.min(x, 50)` is NaN exactly for NaN, and otherwise the smaller of x and 50 |
| RetryCommissions.Get | app/api/retry-commissions/route.ts:30-59 | the handler's reply, POSTs and new tables are those of the route function |
| RetryCommissions.LimitFacts | app/api/retry-commissions/route.ts:44-45 | no parameter gives 10; a numeric limit is at most 50; a decimal parameter n gives min(n, 50) |
| RetryCommissions.WrongSecretIsRejected | app/api/retry-commissions/route.ts:37-40 | with the secret set, a wrong or missing header gives 401 with no read and no POST |
| RetryCommissions.RetriedCountIsTheSweepCount | app/api/retry-commissions/route.ts:50-59 | `retriedCount` is the sweep's count over the clamped limit, at most 50, and 0 with no change when the limit is not a usable number |
| Notifications.BearerToken | app/api/notifications/route.ts:5-8 | a token exists exactly when the header starts with 'Bearer ', and it is the trimmed rest |
| Notifications.MissingTokenIsUnauthorized | app/api/notifications/route.ts:4-22 | no prefix, or only blanks after it, yields no user and 401 |
| Notifications.Owned | app/api/notifications/route.ts:27 | the filter keeps exactly the caller's rows, at most as many as the table holds, as a sub-multiset |
| Notifications.InsertNewestBounded | app/api/notifications/route.ts:28 | inserting keeps every timestamp under a bound the row and the others respect |
| Notifications.InsertNewestPermutes | app/api/notifications/route.ts:28 | inserting adds exactly the new row |
| Notifications.InsertNewestFacts | app/api/notifications/route.ts:28 | inserting into a newest-first sequence keeps it newest first and adds exactly the new row |
| Notifications.SortNewestFirstFacts | app/api/notifications/route.ts:28 | the order is a permutation sorted newest first |
| Notifications.UnreadCount | app/api/notifications/route.ts:36 | the unread count never exceeds the number of items |
| Notifications.UnreadCountFacts | app/api/notifications/route.ts:35-36 | the count is 0 exactly when every item is read, and the item count exactly when none is |
| Notifications.FeedIsSortedPrefix | app/api/notifications/route.ts:24-29 | the listing is a prefix of the caller's rows sorted newest first |
| Notifications.FeedIsOwned | app/api/notifications/route.ts:27 | every row listed is one of the caller's stored rows |
| Notifications.PrefixKeepsNewest | app/api/notifications/route.ts:28-29 | cutting a newest-first sequence leaves out only rows no newer than any kept |
| Notifications.FeedFacts | app/api/notifications/route.ts:24-36 | the listing holds min(owned, 50) of the caller's rows, newest first, leaving out only older ones, and its unread count is 0 exactly when all shown are read |
| Notifications.PatchNotifications | app/api/notifications/route.ts:44-75 | the handler's reply and new tables are those of the PATCH function |
| Notifications.MarkReadFacts | app/api/notifications/route.ts:58-66 | only `is_read` changes, only from false to true, exactly on the caller's unread rows the target selects; positions and other owners' rows are unchanged |
| Notifications.MarkReadIdempotent | app/api/notifications/route.ts:58-68 | repeating a mark-read is a no-op |
| Notifications.PatchRejections | app/api/notifications/route.ts:45-56 | no user gives 401; no truthy `markAll` and no `notificationId` gives 400; anything but success leaves the store unchanged |
| Notifications.MarkAllClearsUnreadCount | app/api/notifications/route.ts:58-68 | after a successful mark-all the caller's next listing has no unread notification |
| PublicTracker.ClassifyIsFirstMatch | components/PublicTrackerClientFixed.tsx:19-24 | a category's label is returned when it matches and no earlier one does; nothing exactly when no category matches |
| PublicTracker.ClassifyLabel | components/PublicTrackerClientFixed.tsx:19-24 | a returned label is one of the categories' labels |
| PublicTracker.CleanHasNoDash | components/PublicTrackerClientFixed.tsx:27 | the cleaned explicit source has no '-' or '_' |
| PublicTracker.CapitalizeFacts | components/PublicTrackerClientFixed.tsx:28 | capitalising keeps the length, adds no '-', '_' or trailing blank, and never starts with a lower-case ASCII letter |
| PublicTracker.PrettifyFacts | components/PublicTrackerClientFixed.tsx:26-29 | the fallback label has no '-' or '_', no blank at its end, no lower-case ASCII first letter, and is empty exactly when the source is all blanks once dashes are spaces |
| PublicTracker.DetectWithFacts | components/PublicTrackerClientFixed.tsx:5-32 | '' outside a browser or for a blank candidate; otherwise a category label, or the prettified explicit source when one was given and nothing matched; a referrer matching nothing gives '' |
| PublicTracker.DetectLeadSourceFacts | components/PublicTrackerClientFixed.tsx:5-32 | the same for the shipped category table, in its order |
| PublicTracker.ExplicitSourceOutranksReferrer | components/PublicTrackerClientFixed.tsx:9-16 | once a query parameter names a source, the referrer has no effect |
| PublicTracker.TrackerForm.constructor | components/PublicTrackerClientFixed.tsx:33-46 | the form starts with empty name and phone, no error, no locked message, not submitted, not submitting and no navigation |
| PublicTracker.TrackerForm.HandleSubmit | components/PublicTrackerClientFixed.tsx:48-96 | the handler leaves its inputs alone, sets the state and posts the request the submit function gives for the old state |
| PublicTracker.TrackerForm.Send | components/PublicTrackerClientFixed.tsx:67-95 | the fetch block leaves the state the reply handling gives, with `submitting` cleared |
| PublicTracker.InvalidInputPostsNothing | components/PublicTrackerClientFixed.tsx:53-63 | a short trimmed name or phone sets its message and posts nothing, leaving the rest of the state |
| PublicTracker.PostedRequestIsValid | components/PublicTrackerClientFixed.tsx:65-73 | a posted request goes to `/api/track/<slug>` with the trimmed name and phone, long enough, and the detected source |
| PublicTracker.SubmitOutcomesAreExclusive | components/PublicTrackerClientFixed.tsx:77-95 | after a post exactly one of error, locked message and submitted shows; locked exactly for a 403 with a plan-limit code; submitted exactly on OK, navigating to `target_url` or else the page's target |
| PublicTracker.AfterReplyOutcomes | components/PublicTrackerClientFixed.tsx:77-95 | the same, for the reply handling from a cleared state |

## Left out

- I/O is not modelled: the `fetch` calls to Paystack and to the
  affiliate API are replies given as inputs, and every store query is a
  value with a boolean error. Logging is left out.
- HMAC-SHA512 is an uninterpreted function. Nothing is proved about the
  digest beyond what the hex comparison needs.
- The bodies of `initializeTransaction` and `verifyTransaction` beyond the
  request they send and the throw on a non-OK reply are not modelled. A
  verify reply whose `data` is null, which makes the route throw and answer
  500, is not represented.
- Time is an input: `Date.now()` is `now`, and `setTimeout` waits are
  recorded as the list of delays, not waited. One `now` serves a whole
  call, so the clock does not advance during backoff.
- `Math.random` is an oracle: slugs and the base-36 suffix of generated
  references are inputs.
- Server-side rendering is not modelled. The tracker's
  `typeof window === 'undefined'` case is the `inBrowser` flag.
- The JSON values a route reads are strings or absent. A non-string
  truthy value, such as a numeric `metadata.user_id`, is not modelled.
  Serialisation quirks are left out, except that a `PRICE_MAP` lookup of
  an inherited member name is truthy and passes the plan check.
- InitSubscription.AmountSent: drops the amount of every inherited name
  from the request body. That is what `JSON.stringify` does for the
  function-valued members; `PRICE_MAP['__proto__']` is an object and
  would be sent as `"amount":{}`, which the model does not represent.
- `.limit(n)` with NaN or a negative number is taken as a failed select
  that retries nothing. The store's exact behaviour for such a limit is
  not modelled.
- The `created_at` order of `commission_notifications` is insertion order.
  `notifications` is ordered by `created_at` with ties kept in table
  order.
- Text.ToLower: maps only the ASCII letters. Unicode case mapping
  (`toLowerCase`/`toUpperCase` outside ASCII) is left out.
- The retry route's 500 reply is not modelled: nothing on the modelled
  path throws.
- A redirect to an origin that is not a valid URL (an `Origin: null`
  header, say) makes `NextResponse.redirect` throw after the update, and
  the catch answers 500 (`app/api/verify-subscription/route.ts:50-54`).
  The HTTP framework is not part of this model: the verification route
  always redirects once the update is made.
- Page rendering, the dashboard, the admin scripts and the client wrappers
  are not part of this model.
- `transfer.*` events, commission triggering from the webhook, and
  concurrent delivery do not exist in this code and are not modelled.
