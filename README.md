# Like-bot authorization and job lifecycle, in Dafny

This project models the state machine at the heart of a Telegram "like" bot (`bot.py`). The bot does four things:

- It keeps a per-user request quota with a lazy 20-hour reset.
- It resolves admins (a fixed allow-list read from `ADMIN_IDS`) and VIPs (a profile whose `vip_expires` lies in the future).
- It answers `/like` in one of three ways: at once for admins and VIPs, by a one-time verification job for everyone else, or with a refusal when the quota is spent.
- It processes verified jobs in a polling loop. Each verified, unprocessed job is handled once: the quota is re-checked, the like API is called, the result is sent, and the job is marked processed.

The MongoDB collections become values. `verifications` is a sequence of `Job`s in insertion order, so a position plays the role of `_id`. `users` (profiles) and `requests` (quota documents) are maps keyed by user id. Every message the bot sends is appended to an outbox. Time is an integer count of seconds since 1970-01-01 00:00:00 UTC, so `datetime`'s range (years 1 to 9999) is an interval of integers.

Modules:

- `Text`: `str.split(',')`, `str.split()`, ASCII `lower()`, decimal numerals. Round trips are proved.
- `Config`: the constants and the `ADMIN_IDS` parse.
- `Records`: the documents, the messages, and the store value `Db`.
- `Quota`: `check_user_requests` and `update_user_requests`.
- `Privilege`: the VIP test, the VIP grant and the `last_used` upsert.
- `Verification`: the `/verify/<code>` endpoint.
- `LikeApi`: classification of the like API's answer.
- `Commands`: `/like`, `/addvip` and `/check` as store transitions.
- `Processor`: one sweep of `process_verified_likes`.
- `Bot`: a class whose fields are the collections and the outbox. Its handler methods update those fields in place and are each proved to make exactly the transition given by the matching function above, and to keep the class invariant `Valid()` (counters within 0 and the limit, processed jobs verified).

## Model

| member | source | states |
|---|---|---|
| `Config.ParseAdminIds` | bot.py:26 | an id is on the parsed allow-list exactly when one of the comma-separated tokens of `ADMIN_IDS` is all digits and reads as that id |
| `Config.DigitTokensMembers` | bot.py:26 | an id is in the allow-list exactly when some comma-separated token is all digits and reads as that id |
| `Config.ParseFormatAdminIds` | bot.py:26 | any list of non-negative ids written comma-separated parses back to the same list, in order |
| `Config.DigitTokensSkips` | bot.py:26 | a token that is not all digits is dropped wherever it stands, the rest keep their order |
| `Text.DecimalRoundTrip` | bot.py:26 | `int()` of a decimal numeral gives back the number |
| `Text.JoinSplit` | bot.py:26 | splitting on `,` loses nothing: joining the pieces restores the string |
| `Text.SplitJoin` | bot.py:26 | comma-free pieces joined with `,` split back into the same pieces |
| `Quota.CheckUserRequests` | bot.py:49-69 | admins are unlimited and only admins are; anyone else gets either the daily limit or their stored counter |
| `Quota.FreshUserHasFullLimit` | bot.py:55-62 | with no document, or no `last_request_time`, an ordinary user has the full limit |
| `Quota.ResetAfterWindow` | bot.py:64-67 | more than 20 hours after the last request the full limit is back, whatever was stored, and a consume succeeds and stores limit − 1 |
| `Quota.WithinWindowReadsStored` | bot.py:64-69 | inside the window the stored counter is reported, or the limit when none was stored |
| `Quota.AdminUnlimited` | bot.py:51-52 | an admin is reported unlimited, and consuming succeeds without changing the store |
| `Quota.Consume` | bot.py:71-93 | succeeds exactly when the reported count is positive (or the user is an admin); on failure, and for admins, the store is unchanged; only the caller's document can change |
| `Quota.ConsumeRecords` | bot.py:82-93 | a successful ordinary consume upserts the request time and the reported count minus one, which is never negative |
| `Quota.ConsumeKeepsBounded` | bot.py:79-93 | every stored counter stays within 0 and the daily limit |
| `Quota.SecondConsumeInWindowFails` | bot.py:77-93 | with limit 1, a second consume by the same user within 20 hours fails and changes nothing |
| `Privilege.GrantVip` | bot.py:222-223 | the upsert sets the target's expiry to now + days, keeps its `last_used`, and leaves all other profiles alone |
| `Privilege.GrantVipThenIsVip` | bot.py:222-223 | after a grant the target is VIP at exactly the times before now + days; nobody else's status changes |
| `Privilege.TouchLastUsed` | bot.py:165 | the upsert sets `last_used = now` and never changes any VIP expiry |
| `Privilege.TouchKeepsVip` | bot.py:165 | recording a use never changes anyone's VIP status |
| `Verification.FindCode` | bot.py:43 | finds the first job holding the code, or reports that no job holds it |
| `Verification.Confirm` | bot.py:41-47 | succeeds exactly when the first job with the code exists and is unverified, and then sets `verified` and `verified_at`; on failure nothing changes |
| `Verification.ConfirmAtMostOnce` | bot.py:43-47 | a second click with the same code fails and leaves the store as the first click left it |
| `Verification.ConfirmUnknownCode` | bot.py:47 | an unknown code fails and changes nothing |
| `Verification.ConfirmKeepsJobs` | bot.py:45 | only the verification fields of one job change; verified jobs are untouched; "processed implies verified" is preserved |
| `LikeApi.Classify` | bot.py:257-279 | status 1 is success, showing each field the answer carries as given and "Unknown" or "0" only for a missing key; status 2 is "max likes reached"; any other status is an API error; an exception is an API error carrying the uid and the message |
| `LikeApi.ClassifyByStatus` | bot.py:257-276 | the kind of result depends only on the status, and only status 1 leads to a `last_used` upsert |
| `Commands.ParseLikeArgs` | bot.py:136-139 | a parse gives a lower-case region and a non-empty, whitespace-free uid |
| `Commands.ParseLikeArgsOf` | bot.py:137-139 | `/like <region> <uid> …` written out parses to the lower-cased region and the uid, whatever follows |
| `Commands.Like` | bot.py:116-209 | `/like` never touches the quota; it adds at most one job, always unverified and unprocessed, and only together with a verification prompt; it never changes a VIP expiry; it sends at most one reply, to the caller's message |
| `Commands.LikeExhaustedRefusedFirst` | bot.py:129-134 | an ordinary user with nothing left gets the limit reply before any parsing, and nothing else changes |
| `Commands.LikeMalformedUsage` | bot.py:136-142 | fewer than three words gets the usage reply and no other change |
| `Commands.LikePrivilegedServedAtOnce` | bot.py:144-175 | admins and VIPs get the API result at once, no job, no quota change; on status 1 the profiles are exactly the `last_used` upsert of the caller, otherwise unchanged |
| `Commands.LikeOrdinaryCreatesJob` | bot.py:177-209 | an ordinary user with requests left gets exactly one new job: unverified, with the code, the lower-cased region and the uid, expiring in 10 minutes. The reply carries the short link, or the plain link when the shortener's answer has no `shortenedUrl`, and the quota is unchanged. This holds whenever the shortener call does not raise and the expiry is a valid `datetime` |
| `Commands.LikeOrdinaryAbortsOnRaise` | bot.py:179-192 | when the shortener call raises, or the ten-minute expiry overflows, the handler ends with no job, no reply and no other change |
| `Commands.LikeAsWritten` | bot.py:36 | with `requests` rebound to the quota collection, every HTTP call raises, so `/like` never stores a job |
| `Commands.LikeAsWrittenDropsOrdinary` | bot.py:177-192 | as written, an ordinary user's well-formed request is dropped with no reply, where a working shortener call would have stored a job |
| `Commands.LikeKeepsJobsConsistent` | bot.py:183-192 | `/like` keeps every processed job verified |
| `Commands.AddVip` | bot.py:211-224 | `/addvip` never touches jobs or quotas; profiles become exactly the target's grant when an admin's arguments can be granted, and stay as they were otherwise; exactly one reply is sent, to the caller's message, except when the grant overflows, which sends none |
| `Commands.AddVipNeedsAdmin` | bot.py:212-214 | a caller off the allow-list is refused and nothing but the outbox changes |
| `Commands.AddVipMalformedUsage` | bot.py:215-220 | an admin's arguments that do not convert get the usage reply and nothing else changes |
| `Commands.AddVipOverflowNoEffect` | bot.py:222-223 | a grant beyond `timedelta`'s 999999999 days, outside `datetime`'s years 1 to 9999, or to a target id beyond 64 bits raises: no upsert and no reply |
| `Commands.AddVipThenVip` | bot.py:215-224 | a grant that does not overflow makes the target VIP exactly until now + days, leaves everyone else's VIP status alone, and confirms that expiry |
| `Commands.CheckStatus` | bot.py:96-114 | admins see admin status; VIPs who are not admins see VIP status; everyone else sees their reported count against the limit |
| `Commands.CheckStatusBounded` | bot.py:109-114 | with bounded counters, the count shown lies within 0 and the limit |
| `Processor.Step` | bot.py:229-288 | handling one job changes only that job's `processed` flag, and only if it was pending. A pending job always gets exactly one message to its chat, in reply to its message. VIP expiries never change |
| `Processor.SweepUpTo` | bot.py:228-229 | the loop keeps the number of jobs |
| `Processor.Sweep` | bot.py:227-288 | one pass over the jobs found at its start: exactly the jobs that were verified and unprocessed become processed; nothing else about any job changes, and no job is added or removed |
| `Processor.SweepLeavesNothingPending` | bot.py:228 | no job is left pending, and processed jobs remain verified |
| `Processor.SweepAgainChangesNothing` | bot.py:227-228 | a later sweep, at any time and with any API answers, selects nothing and changes nothing |
| `Processor.SweepDeliversOncePerJob` | bot.py:244-250 | each pending job gets exactly one message, in store order, and no other message is sent |
| `Processor.SweepProfiles` | bot.py:272 | a sweep never changes a VIP expiry and changes a profile only for a user with a pending job whose API status was 1 |
| `Processor.StepProfileChange` | bot.py:257-272 | one step changes a profile only for the owner of a pending job that got status 1 |
| `Processor.StepQuotaFailureSkipsApi` | bot.py:240-251 | when the quota check fails the API answer is irrelevant; the job gets the limit message and is processed; profiles and quotas are unchanged |
| `Processor.StepServed` | bot.py:253-288 | a job of a privileged or admitted owner gets the classified API result. An ordinary owner's quota is consumed, a privileged owner's is not, and `last_used` is written exactly on status 1 |
| `Processor.SweepKeepsQuotasBounded` | bot.py:240-241 | counters stay within 0 and the limit across a sweep |
| `Bot.Bot.constructor` | bot.py:26 | the running bot's allow-list is `ParseAdminIds` of the raw `ADMIN_IDS` value; the store starts empty and satisfies `Valid()` |
| `Bot.Bot.Verify` | bot.py:41-47 | the endpoint updates the jobs exactly as `Confirm` says and returns its verdict |
| `Bot.Bot.UpdateUserRequests` | bot.py:71-93 | the in-place upsert matches `Consume` |
| `Bot.Bot.CheckCommand` | bot.py:96-114 | sends exactly the status `CheckStatus` gives |
| `Bot.Bot.AddVipCommand` | bot.py:211-224 | the handler's effect on the store is `AddVip` |
| `Bot.Bot.LikeCommand` | bot.py:116-209 | the handler's effect on the store is `Like` |
| `Bot.Bot.HandleJob` | bot.py:229-288 | the loop body's in-place updates match `Step` for that job |
| `Bot.Bot.ProcessVerifiedLikes` | bot.py:226-288 | one pass of the loop leaves the store as `Sweep` describes |

## Left out

- The Telegram transport. Each reply or `send_message` is one outbox entry, and Markdown wording, `strftime` formatting, inline keyboards and the user's first name are not modelled. Delivery never fails in the model. In the source, a failing `send_message` in the processor is outside any `try` and would end the polling task.
- The Flask server, the thread, the asyncio loop, `sleep(5)` and the endless `while True`. These are runtime plumbing. The model is one sweep (`Sweep`) and one handler call at a time, with no interleaving between the endpoint, the commands and the processor. The check-then-act race on the quota is therefore not represented.
- The like API and the link shortener. These are calls into services the model cannot see. Each answer is an input: `ApiOutcome` is a decoded object or an exception, and `ShortenerOutcome` is a `shortenedUrl` value, an object without one, or an exception. JSON decoding and `str()` are not modelled: a status is given as the integer it compares equal to, and a displayed field as the text it is shown as. What bot.py:36 does to these calls is under "## Findings".
- MongoDB query semantics. `find_one` and `update_one` by code act on the first job holding the code. A `processed` field that is absent and one that is `false` are the same value. The `region` default `'ind'` (bot.py:231) never applies, since every job is created with a region.
- `random.choices` (bot.py:178). The code is a parameter required to be 12 letters or digits; its randomness and uniqueness are not modelled.
- `datetime.utcnow()`. The clock is an integer parameter read once per handler call or sweep, in whole seconds. Microseconds are dropped, so two instants within the same second, such as a VIP expiry and a later check, may compare differently than in the source.
- `float('inf')`. This is the `Unlimited` variant.
- Environment loading (bot.py:17-25). `Config` holds the allow-list and the verification base URL.
- Python's `int()` conversion of `/addvip` arguments (bot.py:215-220). This covers signs, whitespace and underscores. The handler receives the arguments already converted, or `None` where the conversion fails.
- `Config.ParseAdminIds`, `Config.DigitTokensMembers`: `str.isdigit` and `int` are modelled on ASCII digits only. Other Unicode digits, which `isdigit` accepts, are treated as non-digits.
- `Commands.ParseLikeArgs`: `lower()` is modelled on ASCII letters only. Non-ASCII region text is kept as is.
- Link expiry. `expires_at` is stored but, as in the source, `verify` does not check it.
- The VIP check at bot.py:102, 126 and 236 is the predicate `Privilege.IsVip`. It has no table row of its own; its properties are stated by `Privilege.GrantVipThenIsVip` and `Commands.AddVipThenVip`.

## Findings

| source | as written | input that shows it | evidently intended | confidence | as-written member | corrected member |
|---|---|---|---|---|---|---|
| bot.py:36 | `requests = db['requests']` rebinds the name of the HTTP library to the quota collection, so `requests.get(...)` at bot.py:149, 179 and 255 calls a collection and raises; at bot.py:179 nothing catches it | any `/like <region> <uid>` from an ordinary user with a request left: no job is stored and no reply is sent | the shortener is called over HTTP, and the user gets a job and a verification link | not executed; high | `Commands.LikeAsWritten`, `Commands.LikeAsWrittenDropsOrdinary` | `Commands.Like`, `Commands.LikeOrdinaryCreatesJob` |
