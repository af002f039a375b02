# Energy dashboard — a verified model of its rules

The energy dashboard is a PHP back end and a React front end for a home's
circuit breakers. The back end keeps users, breakers, power limits and hourly
power samples in MySQL. It answers listing, creation, update and deletion of
breakers, computes consumption summaries and projections, and runs a small
account service. The front end shows the breakers, raises alerts when a
breaker draws more than its watt limit, and validates the sign-in,
registration and password-reset forms.

This project models the rules underneath that code in Dafny and proves
properties of them:

- **Helper layer** (`config_secure.dfy`, module `SecureConfig`):
  - the `.env` loader;
  - the `validateInput` rule checker;
  - the sliding-window rate limiter over the request log;
  - the expiring key/value cache.
  The log and the cache are fields of the class `SecureStore`.
- **Breaker endpoint** (`circuit_breakers.dfy`): one atomic transition per request on the
  breaker table, the power-limit table and the cache (class `BreakerService`).
- **Consumption reports**:
  - the summary and per-day fold of `get_power_data.php` (`power_data.dfy`);
  - the daily projection of `get_power_projections.php` (`power_projections.dfy`);
  - the sample table and its insert endpoint (`power_samples.dfy`);
  - the sample generator of `insert_sample_data.php` (`sample_seeder.dfy`).
- **Accounts** (`accounts.dfy`): register, sign in, reset a password, delete an account, and
  create the test user. Everything runs over a users table and a settings table. Password
  hashing and checking are function parameters.
- **Alert feed** (`alerts.dfy`): the fixed GET feed and the defaulted POST record.
- **Front end**:
  - the shared records (`ui_types.dfy`);
  - the dashboard state (`dashboard.dfy`);
  - the overview statistics (`power_overview.dfy`);
  - one breaker card (`breaker_card.dfy`);
  - the sample chart and its constant tables (`energy_chart.dfy`);
  - the settings context (`settings_context.dfy`);
  - the three forms, e-mail pattern included (`auth_forms.dfy`).
- **Helpers**: `strings.dfy` holds string helpers (PHP `trim`, substring search, decimal
  digits, code-point order of names). `wrappers.dfy` holds `Option`.

How the model stands in for the outside world:

- **Time** is an integer clock `now` given to each operation: seconds on the back end,
  milliseconds in the browser.
- **Database rows and browser storage:** the database is sequences of rows. The browser's
  local storage enters as maps or `Option` values.
- **Undecided outcomes are parameters.** This covers a database failure (`fault`),
  `filter_var`, `is_numeric`, `password_hash` and `password_verify`, and random draws.
- **Responses are values.** Each HTTP response is a datatype value whose constructor names
  its status code.

Behaviour kept exactly as the code has it:

- **`in:`** — `validateInput` has no branch for `in:`, so the PUT `status` rule never
  produces an error.
- **Power-limit update** — the PUT power-limit update is keyed by `breaker_id` alone.
- **Projection scaling** — projections scale each day's `total_power / 1000` by 24.
- **Card power** — the card divides the power factor by 100.
- **Utilization** — the overview's utilization divides by the breaker count with no guard.
  For an empty list it is `None` here, where the browser shows NaN.

## Model

| member | source | states |
|---|---|---|
| SecureConfig.ParseEnvLine | energy-dashboard-backend/config_secure.php:7-9 | a line is used iff it contains `=` and does not start with `#`; it is split at the first `=` and both halves are trimmed |
| SecureConfig.LoadEnv | energy-dashboard-backend/config_secure.php:5-10 | the loop leaves the environment the line-by-line fold of the parsed lines produces |
| SecureConfig.EnvLastBindingWins | energy-dashboard-backend/config_secure.php:6-10 | a key's final value is the one on the last line that binds it |
| SecureConfig.EnvUnboundKeyKept | energy-dashboard-backend/config_secure.php:6-10 | a key no line binds keeps its earlier presence and value |
| SecureConfig.CacheLookup | energy-dashboard-backend/config_secure.php:89-105 | a lookup hits iff caching is on, the key exists and its expiry is strictly after now; a hit returns the stored value |
| SecureConfig.InWindow | energy-dashboard-backend/config_secure.php:65-70 | the WHERE clause of the rate-limit count: the entry is from that IP and strictly newer than now − 3600 |
| SecureConfig.RecentCount | energy-dashboard-backend/config_secure.php:65-73 | the `COUNT(*)` of the log entries that satisfy `InWindow` |
| SecureConfig.SecureStore.constructor | energy-dashboard-backend/config_secure.php:35-36 | the store starts with the given cache switch, an empty request log and an empty cache |
| SecureConfig.SecureStore.CheckRateLimit | energy-dashboard-backend/config_secure.php:62-86 | a request is admitted iff the IP has fewer than 100 log entries newer than now − 3600; an admitted request appends exactly `(ip, now)`, a rejected one appends nothing |
| SecureConfig.SecureStore.GetCache | energy-dashboard-backend/config_secure.php:89-105 | a hit iff caching is on and an unexpired row exists, returning its value, without changing the store |
| SecureConfig.SecureStore.SetCache | energy-dashboard-backend/config_secure.php:107-121 | an upsert of the one row for the key with the value and expiry now + duration (300 by default); nothing when caching is off |
| SecureConfig.RecentCountAppend | energy-dashboard-backend/config_secure.php:65-78 | each appended in-window entry of the IP raises its count by one |
| SecureConfig.LimitReachedRejects | energy-dashboard-backend/config_secure.php:75-78 | after 100 in-window requests from one IP the next is rejected |
| SecureConfig.WindowElapsedAdmits | energy-dashboard-backend/config_secure.php:65-78 | once every entry of the IP is older than the window its count is 0 |
| SecureConfig.OtherIpsIgnored | energy-dashboard-backend/config_secure.php:65-78 | another IP's entries never change an IP's count |
| SecureConfig.SetThenGet | energy-dashboard-backend/config_secure.php:92-120 | after a write with duration d, a later lookup hits iff it happens before now + d, and then returns the written value |
| SecureConfig.InvalidateMisses | energy-dashboard-backend/config_secure.php:107-120 | a write with duration 0 makes every later lookup of that key miss |
| SecureConfig.SetOtherKey | energy-dashboard-backend/config_secure.php:107-120 | a write to one key leaves lookups of every other key as they were |
| SecureConfig.FindMinRule | energy-dashboard-backend/config_secure.php:145 | the leftmost position at or after i where `min:` and a digit occur, `None` iff there is none |
| SecureConfig.MinRule | energy-dashboard-backend/config_secure.php:145-146 | `None` iff no `min:` is followed by a digit; otherwise the capture is the whole digit run after the leftmost such `min:` |
| SecureConfig.FieldError | energy-dashboard-backend/config_secure.php:127-151 | a missing field fails iff its rule says `required`; a present one passes iff its e-mail, numeric and `min:` checks all pass; the checks run in that order and the last failing one's message wins: a failing `min:N` gives "Minimum length is N characters", else a failing numeric check "Must be a number", else a failing e-mail check "Invalid email format" |
| SecureConfig.Validation | energy-dashboard-backend/config_secure.php:124-154 | every error in the map is the message of a rule for that same field |
| SecureConfig.ValidateInput | energy-dashboard-backend/config_secure.php:124-154 | the loop's error map equals the per-field fold of the rule checks |
| SecureConfig.ValidationKeys | energy-dashboard-backend/config_secure.php:124-154 | only fields named by a rule carry errors |
| SecureConfig.ValidationEmptyIff | energy-dashboard-backend/config_secure.php:124-154 | the error map is empty iff no field's rule fails |
| SecureConfig.ValidationPerField | energy-dashboard-backend/config_secure.php:127-151 | a field has an error iff its own checks fail, and the message is its own check's message |
| SecureConfig.MissingFieldOnlyRequired | energy-dashboard-backend/config_secure.php:128-133 | a missing field yields exactly "Field is required" when its rule contains `required` and nothing otherwise |
| SecureConfig.MinFailureWins | energy-dashboard-backend/config_secure.php:137-150 | a failing `min:N` check's message replaces the e-mail and numeric messages, since it runs last |
| SecureConfig.InRuleNeverFails | energy-dashboard-backend/config_secure.php:124-154 | the rule `in:On,Off` never yields an error, as there is no branch for it |
| Strings.IndexOf | energy-dashboard-backend/config_secure.php:7 | the first position of a character, or `None` iff it does not occur (`strpos`) |
| Strings.Trim | energy-dashboard-backend/config_secure.php:9 | the result is a slice with only trim-space removed at both ends and none left at its ends |
| Strings.TrimIdempotent | energy-dashboard-backend/config_secure.php:9 | trimming twice equals trimming once |
| Strings.ContainsSpec | energy-dashboard-backend/config_secure.php:129 | the substring search (`strpos !== false`) holds iff the pattern occurs at some position |
| Strings.NatToStringRoundTrip | energy-dashboard-backend/circuit_breakers.php:33 | the decimal text of an id reads back as that id |
| Strings.NatToStringInjective | energy-dashboard-backend/circuit_breakers.php:33 | two ids with the same decimal text are equal |
| Strings.StrLeTotal | energy-dashboard-backend/circuit_breakers.php:46 | the name order used for sorting relates every two names |
| CircuitBreakers.CacheKeyInjective | energy-dashboard-backend/circuit_breakers.php:33 | two users never share a listing cache key |
| CircuitBreakers.CacheKey | energy-dashboard-backend/circuit_breakers.php:33 | the listing cache key: `circuit_breakers_user_` followed by the user's decimal id |
| CircuitBreakers.PutStatusNeverValidated | energy-dashboard-backend/circuit_breakers.php:130-137 | the PUT rules never report an error for `status`; an unknown status is refused only by the column type, in `Update` |
| CircuitBreakers.StatusRejected | energy-dashboard-backend/migrate.php:40 | the ENUM column refuses the write: the body's `status` is neither "On" nor "Off" and the PUT matches one of the caller's rows |
| CircuitBreakers.OwnedBy | energy-dashboard-backend/circuit_breakers.php:45 | exactly the breakers owned by the user are kept |
| CircuitBreakers.LimitsOf | energy-dashboard-backend/circuit_breakers.php:44 | exactly the limit rows of the breaker are kept |
| CircuitBreakers.JoinOne | energy-dashboard-backend/circuit_breakers.php:42-44 | the LEFT JOIN rows of one breaker: one per limit row of that breaker, each carrying that row's max power and warning threshold, and every such limit row appears; with no limit row, exactly one row with both columns null |
| CircuitBreakers.Join | energy-dashboard-backend/circuit_breakers.php:41-47 | every joined row is one of its breaker's LEFT JOIN rows, and every LEFT JOIN row of every breaker appears |
| CircuitBreakers.JoinAppend | energy-dashboard-backend/circuit_breakers.php:41-47 | joining two lists of breakers is joining each, in order |
| CircuitBreakers.InsertByName | energy-dashboard-backend/circuit_breakers.php:46 | inserting into a name-sorted list keeps it sorted and adds exactly that row |
| CircuitBreakers.SortByName | energy-dashboard-backend/circuit_breakers.php:46 | the result is sorted by name and a permutation of the input |
| CircuitBreakers.ListingScoped | energy-dashboard-backend/circuit_breakers.php:41-50 | the listing is in name order, holds only the caller's breakers, and holds each of them |
| CircuitBreakers.PatchRows | energy-dashboard-backend/circuit_breakers.php:175-181 | an update keeps the number of rows and every row's id and owner |
| CircuitBreakers.UpdateRows | energy-dashboard-backend/circuit_breakers.php:175-181 | the UPDATE statement keeps the number of rows |
| CircuitBreakers.SetLimitRows | energy-dashboard-backend/circuit_breakers.php:186-196 | the limit UPDATE keeps the number of limit rows |
| CircuitBreakers.RemoveOwned | energy-dashboard-backend/circuit_breakers.php:227-232 | exactly the rows with that id and the caller as owner are removed |
| CircuitBreakers.CascadeLimits | energy-dashboard-backend/circuit_breakers.php:226 | exactly the limit rows of the deleted breaker are removed |
| CircuitBreakers.Invalidated | energy-dashboard-backend/circuit_breakers.php:106-107 | the caller's listing key is overwritten by an already expired null, and nothing else changes |
| CircuitBreakers.WriteThenListMisses | energy-dashboard-backend/circuit_breakers.php:33-52 | after a write invalidates the caller's key, the caller's next GET misses the cache (so `List` answers from the new tables) and other users' cached listings read as before |
| CircuitBreakers.BreakerService.constructor | energy-dashboard-backend/circuit_breakers.php:2 | the service starts with empty tables over the shared store |
| CircuitBreakers.BreakerService.Invalidate | energy-dashboard-backend/circuit_breakers.php:106-107 | the cache becomes the invalidated cache |
| CircuitBreakers.BreakerService.List | energy-dashboard-backend/circuit_breakers.php:31-54 | a hit answers from the cache and changes nothing; a miss answers the scoped listing and caches it for 300 s |
| CircuitBreakers.BreakerService.Create | energy-dashboard-backend/circuit_breakers.php:56-118 | validation errors give 400 and a fault gives 500, both with nothing changed; success adds one breaker owned by the caller and one limit row with threshold 0.9 × P, and invalidates the cache |
| CircuitBreakers.BreakerService.Insert | energy-dashboard-backend/circuit_breakers.php:77-101 | the two INSERTs add exactly the breaker and its limit row under the next id |
| CircuitBreakers.NewBreaker | energy-dashboard-backend/circuit_breakers.php:77-86 | a created breaker has the new id, belongs to the caller, starts "Off" and carries the posted name, location and limit |
| CircuitBreakers.BreakerService.Update | energy-dashboard-backend/circuit_breakers.php:120-211 | a missing id gives 400, validation errors 400, and a fault or a status other than "On"/"Off" written into one of the caller's rows 500, none changing anything; success patches only the supplied fields of the caller's row, rewrites that breaker id's limit row only when `power_limit` is supplied, and invalidates the cache |
| CircuitBreakers.BreakerService.Remove | energy-dashboard-backend/circuit_breakers.php:213-246 | a missing id gives 400 and a fault 500, neither changing anything; success removes the caller's breaker with that id and, by cascade, its limit rows, and invalidates the cache |
| CircuitBreakers.BreakerService.Handle | energy-dashboard-backend/circuit_breakers.php:5-30 | the rate limit runs first and alone decides 429; OPTIONS gives 200, other methods 405 and a missing session user 401, none touching the tables |
| CircuitBreakers.PostRulesRequired | energy-dashboard-backend/circuit_breakers.php:60-64 | each POST field's rule contains `required` |
| CircuitBreakers.RequiredPresent | energy-dashboard-backend/circuit_breakers.php:66-71 | when validation passes, every field whose rule contains `required` is present |
| CircuitBreakers.PostNonNumericLimit | energy-dashboard-backend/circuit_breakers.php:59-71 | a POST whose `power_limit` is not numeric gets the 400 error "Must be a number" for that field |
| CircuitBreakers.UpdatesArePatch | energy-dashboard-backend/circuit_breakers.php:148-181 | applying the built SET list equals replacing exactly the supplied fields |
| CircuitBreakers.SetStepEffect | energy-dashboard-backend/circuit_breakers.php:151-169 | one `isset` step adds its assignment only when the field is supplied |
| CircuitBreakers.AssignAllAppend | energy-dashboard-backend/circuit_breakers.php:177 | applying a joined SET list is applying its parts in order |
| CircuitBreakers.UpdateRowsArePatch | energy-dashboard-backend/circuit_breakers.php:171-182 | running the UPDATE only for a non-empty list equals patching the row; an empty list changes nothing |
| CircuitBreakers.CreateKeepsValid | energy-dashboard-backend/circuit_breakers.php:74-103 | creation keeps ids unique and below the counter, limit rows pointing at breakers, and thresholds at 90 % |
| CircuitBreakers.PatchKeepsValid | energy-dashboard-backend/circuit_breakers.php:171-182 | a patch keeps the table invariants |
| CircuitBreakers.SetLimitKeepsValid | energy-dashboard-backend/circuit_breakers.php:185-197 | the limit rewrite keeps the table invariants, thresholds included |
| CircuitBreakers.RemoveKeepsValid | energy-dashboard-backend/circuit_breakers.php:226-232 | a delete with its cascade keeps the table invariants |
| CircuitBreakers.RemoveOwnedKeepsIds | energy-dashboard-backend/circuit_breakers.php:227-232 | a delete keeps ids unique and below the counter |
| PowerData.RateOf | energy-dashboard-backend/get_power_data.php:40-43 | the user's rate when a settings row exists, else 0.12 |
| PowerData.WithKwh | energy-dashboard-backend/get_power_data.php:95-97 | each row gains `kwh = total_power / 1000`, in order |
| PowerData.SumKwh | energy-dashboard-backend/get_power_data.php:95-98 | `total_kwh`: the left-fold sum of each row's `total_power / 1000` |
| PowerData.SummaryOf | energy-dashboard-backend/get_power_data.php:114-134 | averages times the day count give back the totals; monthly is avg × 30 and yearly avg × 365, each cost being kWh × rate |
| PowerData.EmptySummary | energy-dashboard-backend/get_power_data.php:71-88 | every figure is 0 except the rate |
| PowerData.Accumulate | energy-dashboard-backend/get_power_data.php:91-111 | the loop yields the rows with kWh, Σ kWh, Σ kWh × rate and the per-day map |
| PowerData.AddRow | energy-dashboard-backend/get_power_data.php:101-110 | one row updates its date's entry, creating it at zero first |
| PowerData.AddToDay | energy-dashboard-backend/get_power_data.php:101-110 | one fold step on `daily_averages`: a new date starts at zeros and is listed last; then its kWh, cost and count grow by the row's |
| PowerData.DailyOf | energy-dashboard-backend/get_power_data.php:101-110 | the date of the row folded last always has an entry in the per-day map |
| PowerData.FoldStep | energy-dashboard-backend/get_power_data.php:95-111 | one loop step extends each accumulated result by exactly that row |
| PowerData.GetPowerData | energy-dashboard-backend/get_power_data.php:14-146 | OPTIONS gives 200, non-GET 405, a missing user id 400, a fault 500; no rows gives the all-zero summary; otherwise the rows, the summary over the distinct days and the per-day map |
| PowerData.DailyWellFormed | energy-dashboard-backend/get_power_data.php:101-107 | the per-day map lists each date once |
| PowerData.DailyNonEmpty | energy-dashboard-backend/get_power_data.php:114 | with rows there is at least one day, so the averages divide by a positive count |
| PowerData.DailyKeys | energy-dashboard-backend/get_power_data.php:101-107 | a date has an entry iff some row has that date |
| PowerData.DailyTotals | energy-dashboard-backend/get_power_data.php:108-110 | a day's count is its number of rows and its kWh the sum of their kWh |
| PowerData.DailyCost | energy-dashboard-backend/get_power_data.php:109 | a day's cost is its kWh × rate |
| PowerData.DailyAbsentZero | energy-dashboard-backend/get_power_data.php:101-110 | a date without an entry has no rows |
| PowerData.DailySumIsTotal | energy-dashboard-backend/get_power_data.php:98-110 | the days' kWh add up to `total_kwh` |
| PowerData.CostIsKwhTimesRate | energy-dashboard-backend/get_power_data.php:98-99 | `total_cost` is `total_kwh` × rate |
| PowerData.SummaryCostsConsistent | energy-dashboard-backend/get_power_data.php:114-119 | the average daily cost is the average daily kWh × rate, and the monthly cost 30 × the daily cost |
| PowerProjections.Usage | energy-dashboard-backend/get_power_projections.php:58-65 | one entry per input day in order, `kwh = total_power / 1000 × 24`, `cost = kwh × rate` |
| PowerProjections.DayKwh | energy-dashboard-backend/get_power_projections.php:60 | a day's kWh: `total_power / 1000 × 24` |
| PowerProjections.Project | energy-dashboard-backend/get_power_projections.php:70-86 | avg × days gives back the total; month, remaining and yearly figures are avg × days-in-month, × days left and × 365, each cost kWh × rate |
| PowerProjections.DailyConsumption | energy-dashboard-backend/get_power_projections.php:56-67 | the loop yields the usage list and Σ kWh |
| PowerProjections.GetProjections | energy-dashboard-backend/get_power_projections.php:7-116 | OPTIONS exits at once with 200; otherwise a missing user id and an empty week are the script's errors (HTTP 500); success happens iff there are id, rows and no fault, and then reports the projection at the user's rate or 0.12 |
| PowerProjections.RemainingBounded | energy-dashboard-backend/get_power_projections.php:76-85 | for a non-negative total, 0 ≤ remaining ≤ projected |
| PowerProjections.LastDayNothingRemains | energy-dashboard-backend/get_power_projections.php:76-86 | on the month's last day nothing remains, in kWh and in cost |
| PowerProjections.UsageSumIsTotal | energy-dashboard-backend/get_power_projections.php:60-66 | the listed daily kWh add up to the total |
| PowerSamples.WithoutUser | energy-dashboard-backend/insert_sample_data.php:26-27 | exactly the user's samples are removed |
| PowerSamples.WithoutUserIdempotent | energy-dashboard-backend/insert_sample_data.php:26-27 | deleting a user's samples twice is deleting them once |
| PowerSamples.WithoutUserAppend | energy-dashboard-backend/insert_sample_data.php:26-27 | deleting from joined tables is deleting from each part, so the kept rows keep their order |
| PowerSamples.WithoutUserSingle | energy-dashboard-backend/insert_sample_data.php:26-27 | a single row is deleted iff it belongs to the user |
| PowerSamples.SampleTable.constructor | energy-dashboard-backend/store_power_data.php:35-38 | the sample table starts empty |
| PowerSamples.SampleTable.Append | energy-dashboard-backend/store_power_data.php:35-46 | one INSERT appends exactly that sample |
| PowerSamples.SampleTable.DeleteUser | energy-dashboard-backend/insert_sample_data.php:26-27 | the table becomes the rows of the other users, in order |
| PowerSamples.SampleTable.Store | energy-dashboard-backend/store_power_data.php:9-53 | OPTIONS gives 200, non-POST 405, any missing field 400 and a fault 500, none storing anything; success appends exactly one sample with the five values |
| SampleSeeder.BasePower | energy-dashboard-backend/insert_sample_data.php:39-47 | each breaker's base power lies in [2, 6] W |
| SampleSeeder.TimeFactor | energy-dashboard-backend/insert_sample_data.php:66-73 | lies in [0.1, 1.2], and is 1.1 exactly for hours 6–9, 1.2 exactly for 17–21 and 0.1 exactly for hours ≥ 23 or ≤ 5 |
| SampleSeeder.BreakerFactor | energy-dashboard-backend/insert_sample_data.php:76-123 | every breaker factor lies in [0.1, 1.3] |
| SampleSeeder.KitchenMealTimes | energy-dashboard-backend/insert_sample_data.php:88-94 | the kitchen factor is 1.3 exactly at meal hours 7–9, 12–14 and 18–20, and 0.3 otherwise |
| SampleSeeder.Power | energy-dashboard-backend/insert_sample_data.php:59-125 | the sample power `(base + v) × time factor × breaker factor` is never negative for a variation v ∈ [−2, 2] |
| SampleSeeder.Voltage | energy-dashboard-backend/insert_sample_data.php:60-126 | `230 + w` lies in [225, 235] for w ∈ [−5, 5] |
| SampleSeeder.Current | energy-dashboard-backend/insert_sample_data.php:127 | current × voltage gives back the power |
| SampleSeeder.SampleAt | energy-dashboard-backend/insert_sample_data.php:125-138 | the row for (day, hour, breaker) has the test user, that breaker, the hour's timestamp and in-range values |
| SampleSeeder.HourRows | energy-dashboard-backend/insert_sample_data.php:57 | one row per breaker of the hour |
| SampleSeeder.DayRows | energy-dashboard-backend/insert_sample_data.php:56-57 | seven rows per hour of the day |
| SampleSeeder.WeekRows | energy-dashboard-backend/insert_sample_data.php:52-57 | 7 × 24 rows per day |
| SampleSeeder.InsertSampleData | energy-dashboard-backend/insert_sample_data.php:13-160 | without a test user the result is the error and the table is unchanged; otherwise the user's rows are deleted first and the week's rows appended |
| SampleSeeder.InsertWeek | energy-dashboard-backend/insert_sample_data.php:52-141 | the day loop appends the week's rows, oldest day first |
| SampleSeeder.InsertDay | energy-dashboard-backend/insert_sample_data.php:56-140 | the hour loop appends the day's rows in hour order |
| SampleSeeder.InsertHour | energy-dashboard-backend/insert_sample_data.php:57-139 | the breaker loop appends one row per breaker in id order |
| SampleSeeder.RecordsMatchRows | energy-dashboard-backend/insert_sample_data.php:147 | the reported `records_inserted` (1176) equals the number of rows inserted |
| SampleSeeder.HourRowsInRange | energy-dashboard-backend/insert_sample_data.php:57-138 | every row of an hour belongs to the test user and has its values in range |
| SampleSeeder.DayRowsInRange | energy-dashboard-backend/insert_sample_data.php:56-139 | every row of a day belongs to the test user and has its values in range |
| SampleSeeder.WeekRowsInRange | energy-dashboard-backend/insert_sample_data.php:52-141 | every inserted row belongs to the test user, with non-negative power and voltage in [225, 235] |
| Accounts.FindByEmail | energy-dashboard-backend/login.php:30-32 | the first row with that e-mail, `None` iff there is none |
| Accounts.SetPassword | energy-dashboard-backend/reset_password.php:49-50 | only the row with that id gets the new hash; every other row and field is unchanged |
| Accounts.RemoveId | energy-dashboard-backend/delete_account.php:45-46 | exactly the rows with that id are removed |
| Accounts.Login | energy-dashboard-backend/login.php:1-52 | OPTIONS gives 200, other methods 405, missing fields 400; a failing SELECT gives 500; "Invalid credentials" iff no row has the trimmed e-mail or the password does not verify; a found user whose password verifies gets "Login successful" with id, name and e-mail only |
| Accounts.WithTestUser | energy-dashboard-backend/create_test_user.php:13-48 | an existing test user leaves the tables alone; otherwise one user "Test User" and one settings row with rate 12 are added under the next id |
| Accounts.TestUserIdempotent | energy-dashboard-backend/create_test_user.php:19-48 | creating the test user twice equals creating it once |
| Accounts.FindAppended | energy-dashboard-backend/register.php:45-59 | a user registered under a fresh e-mail is then found by it |
| Accounts.FindUnique | energy-dashboard-backend/login.php:30-32 | with unique e-mails the lookup finds the one row with that e-mail |
| Accounts.FindOwner | energy-dashboard-backend/login.php:30-32 | with unique e-mails each user is found by their own e-mail |
| Accounts.ResetVisible | energy-dashboard-backend/reset_password.php:35-50 | after a reset the lookup returns the same user with the new hash |
| Accounts.DeletedNotFound | energy-dashboard-backend/delete_account.php:45-46 | a deleted user is no longer found by e-mail |
| Accounts.LoginAfterRegister | energy-dashboard-backend/login.php:25-47 | a stored user whose password verifies signs in and gets their public record |
| Accounts.UserStore.constructor | energy-dashboard-backend/register.php:58 | the store starts with empty tables and id counter 1 |
| Accounts.UserStore.Register | energy-dashboard-backend/register.php:4-66 | checks run in the order preflight, method, fields, e-mail, length ≥ 6, duplicate e-mail, and a failing one changes nothing; success appends exactly one user with the trimmed name and e-mail and the hashed, untrimmed password |
| Accounts.UserStore.Insert | energy-dashboard-backend/register.php:58-59 | the INSERT appends exactly that user under the next id and keeps e-mails unique |
| Accounts.UserStore.ResetPassword | energy-dashboard-backend/reset_password.php:7-56 | missing fields give 400; an unknown e-mail or wrong password gives 401 and changes nothing; success replaces only that user's hash; the e-mail is not trimmed and the new password has no length check |
| Accounts.UserStore.DeleteAccount | energy-dashboard-backend/delete_account.php:9-57 | missing fields give 400; bad credentials give 401 and delete nothing; success removes exactly the verified user; an affected-row failure gives 500 |
| Accounts.UserStore.CreateTestUser | energy-dashboard-backend/create_test_user.php:13-64 | a failing existence SELECT gives 500 with nothing changed; otherwise an existing test user is reported with its id, e-mail and password and nothing is inserted; otherwise the user and, unless that INSERT fails, the settings row are added, and success reports the new id with the same credentials |
| Accounts.SetPasswordKeepsValid | energy-dashboard-backend/reset_password.php:49-50 | a reset keeps e-mails and ids unique |
| Accounts.RemoveKeepsValid | energy-dashboard-backend/delete_account.php:45-46 | a delete keeps e-mails and ids unique |
| Accounts.RemoveShrinks | energy-dashboard-backend/delete_account.php:45-50 | deleting a stored user removes at least one row |
| Alerts.SimulatedAlerts | energy-dashboard-backend/alerts.php:25-48 | two alerts with ids 1 and 2, the caller's user id, status `active`, resolved_at null, created one and two hours ago |
| Alerts.NewAlert | energy-dashboard-backend/alerts.php:60-70 | id 3, the caller's user id, status `active`, resolved_at null, missing fields defaulted to breaker 1, `overload`, "New alert" and `medium` |
| Alerts.Handle | energy-dashboard-backend/alerts.php:9-78 | OPTIONS gives 200 and a missing session user 401; GET gives the feed, POST the new record, other methods 405 |
| Alerts.FeedIgnoresPosts | energy-dashboard-backend/alerts.php:51-55 | the GET feed does not depend on any posted data |
| Alerts.EmptyPostDefaults | energy-dashboard-backend/alerts.php:57-71 | an empty POST gives the fully defaulted record |
| UiTypes.LimitOr1500 | energy-dashboard-frontend/src/components/Dashboard.js:491 | the stored limit when it parses to a non-zero number, else 1500; never 0 |
| UiTypes.ApparentPower | energy-dashboard-frontend/src/components/PowerOverview.js:65-66 | `current × voltage` of the breaker's reading, and 0 W when it has none |
| UiTypes.Overloaded | energy-dashboard-frontend/src/components/PowerOverview.js:64-68 | the overload test the overview and the dashboard share: the breaker is "On" and its apparent power exceeds `LimitOr1500` |
| UiTypes.ActiveCount | energy-dashboard-frontend/src/components/Dashboard.js:317 | the number of breakers that are on is at most the list length, and 0 iff none is on |
| Dashboard.Flip | energy-dashboard-frontend/src/components/Dashboard.js:195 | "On" becomes "Off" and every other status becomes "On" |
| Dashboard.FindByName | energy-dashboard-frontend/src/components/Dashboard.js:194 | the first breaker with that name, `None` iff there is none |
| Dashboard.SetAllStatus | energy-dashboard-frontend/src/components/Dashboard.js:197-200 | every breaker gets the status, nothing else changes |
| Dashboard.FlipNamed | energy-dashboard-frontend/src/components/Dashboard.js:204-208 | exactly the breakers with the name flip, the rest are unchanged |
| Dashboard.Toggled | energy-dashboard-frontend/src/components/Dashboard.js:190-210 | Main Panel sets every status to the flip of its old status; another name flips only its breakers; length, order and every other field are kept; a missing Main Panel is `None`, where the source throws |
| Dashboard.ToggleTwiceRestores | energy-dashboard-frontend/src/components/Dashboard.js:204-208 | toggling a non-main breaker twice restores the list |
| Dashboard.MainPanelTwice | energy-dashboard-frontend/src/components/Dashboard.js:193-200 | toggling Main Panel twice sets every breaker to Main Panel's original status |
| Dashboard.FindAfterSetAll | energy-dashboard-frontend/src/components/Dashboard.js:194-200 | after setting all statuses the same breaker is found, carrying the new status |
| Dashboard.NewUiAlert | energy-dashboard-frontend/src/components/Dashboard.js:212-221 | the entry carries the request's message, breaker and details, the clock as id and type defaulting to `warning` |
| Dashboard.RemoveAlert | energy-dashboard-frontend/src/components/Dashboard.js:223-225 | exactly the alerts with that id are removed; a list without that id is returned unchanged |
| Dashboard.RemoveAlertAppend | energy-dashboard-frontend/src/components/Dashboard.js:223-225 | removing from a joined list is removing from each part, so the kept alerts keep their order and multiplicity |
| Dashboard.RemoveAlertSingle | energy-dashboard-frontend/src/components/Dashboard.js:223-225 | a single alert is dropped iff it has the id |
| Dashboard.PeakSum | energy-dashboard-frontend/src/components/Dashboard.js:319-322 | the peak load of the breakers that are on is between 0 and 12 W per active breaker |
| Dashboard.PeakSumAppend | energy-dashboard-frontend/src/components/Dashboard.js:319-322 | the peak load of a joined list is the sum of the peak loads of its parts |
| Dashboard.MetricsOf | energy-dashboard-frontend/src/components/Dashboard.js:315-323 | the active count is the number of breakers that are on and at most the total; alerts are counted; the load is the peak sum, 0 when nothing is on |
| Dashboard.MainPanelOffClearsLoad | energy-dashboard-frontend/src/components/Dashboard.js:193-200 | switching Main Panel off leaves no active breaker and no load |
| Dashboard.LimitAlertsExact | energy-dashboard-frontend/src/components/Dashboard.js:486-513 | a check raises an alert for a breaker iff it is on and draws more than its stored limit |
| Dashboard.LimitAlert | energy-dashboard-frontend/src/components/Dashboard.js:494-509 | the alert names the breaker, says "Power limit exceeded in …", has type `warning`, the clock as id, the breaker's apparent power and location and two recommendations |
| Dashboard.LimitAlerts | energy-dashboard-frontend/src/components/Dashboard.js:486-513 | a check raises at most one alert per breaker, each with the clock as id and the "Power limit exceeded in" message for its breaker |
| Dashboard.NoReadingsNoAlerts | energy-dashboard-frontend/src/components/Dashboard.js:489-493 | without readings and with non-negative limits no alert is raised |
| Dashboard.DashboardState.constructor | energy-dashboard-frontend/src/components/Dashboard.js:163-177 | the state starts with the seven initial breakers, the two initial alerts, the menu closed and two unread |
| Dashboard.DashboardState.SyncUnread | energy-dashboard-frontend/src/components/Dashboard.js:478-482 | with the menu closed the unread count becomes the number of alerts; with it open it is unchanged |
| Dashboard.DashboardState.ToggleBreaker | energy-dashboard-frontend/src/components/Dashboard.js:190-210 | the breaker list becomes the toggled list |
| Dashboard.DashboardState.AddAlert | energy-dashboard-frontend/src/components/Dashboard.js:212-221 | exactly one entry is prepended and the rest keep their order |
| Dashboard.DashboardState.CloseAlert | energy-dashboard-frontend/src/components/Dashboard.js:223-225 | the list loses exactly the alerts with that id |
| Dashboard.DashboardState.ClearAllAlerts | energy-dashboard-frontend/src/components/Dashboard.js:227-230 | the list is emptied and the menu closes |
| Dashboard.DashboardState.OpenMenu | energy-dashboard-frontend/src/components/Dashboard.js:455-458 | opening the menu resets the unread count to 0 |
| Dashboard.DashboardState.CloseMenu | energy-dashboard-frontend/src/components/Dashboard.js:478-482 | closing the menu sets the unread count to the number of alerts |
| Dashboard.DashboardState.CheckPowerLimits | energy-dashboard-frontend/src/components/Dashboard.js:486-515 | one alert per overloaded breaker is prepended, newest first |
| Dashboard.DashboardState.CheckBreaker | energy-dashboard-frontend/src/components/Dashboard.js:487-513 | one breaker's check prepends its alert iff it is overloaded |
| PowerOverview.OverloadColor | energy-dashboard-frontend/src/components/PowerOverview.js:28-33 | success iff ≤ 100, warning iff in (100, 110], error iff in (110, 120], error.dark iff above 120 |
| PowerOverview.ActivePower | energy-dashboard-frontend/src/components/PowerOverview.js:39-42 | the load of the breakers that are on is 0 when none is on |
| PowerOverview.OverloadedOf | energy-dashboard-frontend/src/components/PowerOverview.js:64-80 | a breaker is listed iff it is on and above its limit (1500 by default) |
| PowerOverview.OverloadedAppend | energy-dashboard-frontend/src/components/PowerOverview.js:64-80 | filtering a joined list is filtering each part, so the overloaded list keeps list order and multiplicity |
| PowerOverview.OverloadedSingle | energy-dashboard-frontend/src/components/PowerOverview.js:64-80 | a single breaker is kept iff it is overloaded |
| PowerOverview.EntryOf | energy-dashboard-frontend/src/components/PowerOverview.js:82-93 | an entry carries the breaker's name and, for a positive limit, a percentage above 100 |
| PowerOverview.CalculateStats | energy-dashboard-frontend/src/components/PowerOverview.js:35-107 | total in kW, active ≤ total count, the average per active breaker, the k-th entry is that of the k-th breaker `OverloadedOf` keeps (in list order, by `OverloadedAppend`), and utilization in [0, 100], absent for an empty list |
| PowerOverview.Average | energy-dashboard-frontend/src/components/PowerOverview.js:46 | 0 when nothing is on; otherwise average × active gives back the total |
| PowerOverview.Entries | energy-dashboard-frontend/src/components/PowerOverview.js:82-93 | the entries keep the overloaded list's length and order |
| PowerOverview.Percent | energy-dashboard-frontend/src/components/PowerOverview.js:106 | `active / total × 100` lies in [0, 100] for a non-empty list |
| PowerOverview.OffNeverOverloaded | energy-dashboard-frontend/src/components/PowerOverview.js:64-80 | a breaker that is off is never listed as overloaded |
| PowerOverview.ListedAbove100 | energy-dashboard-frontend/src/components/PowerOverview.js:82-93 | every listed overload with a positive limit is above 100 % |
| BreakerCard.PowerWatts | energy-dashboard-frontend/src/components/CircuitBreakerCard.js:9-14 | 0 without data; otherwise 100 × power equals current × voltage × power factor |
| BreakerCard.InitialLimit | energy-dashboard-frontend/src/components/CircuitBreakerCard.js:17-20 | 1500 without an entry, the parsed value for a number, NaN for unreadable text |
| BreakerCard.CardAlert | energy-dashboard-frontend/src/components/CircuitBreakerCard.js:60-80 | the alert names the card's breaker and location, says "Power limit exceeded in …", has type `warning`, the card's power, the time and three recommendations |
| BreakerCard.CardState.constructor | energy-dashboard-frontend/src/components/CircuitBreakerCard.js:17-23 | the limit and the editor start from the stored entry; no banner, not editing, no alert yet |
| BreakerCard.CardState.CheckLimit | energy-dashboard-frontend/src/components/CircuitBreakerCard.js:54-88 | the banner shows iff power > limit and the breaker is on; the alert is sent iff it shows, a callback exists, and there was no earlier alert or more than 30000 ms have passed; sending records the time |
| BreakerCard.CardState.CheckTimeline | energy-dashboard-frontend/src/components/CircuitBreakerCard.js:54-88 | re-running the effect over a timeline of renders sends alerts exactly at the times `AlertTimes` gives for those renders, so `AlertsSpaced` and `AlertsOnlyWhenExceeded` hold of the card itself |
| BreakerCard.CardState.ToggleEditing | energy-dashboard-frontend/src/components/CircuitBreakerCard.js:155 | the editor flag flips and nothing else changes |
| BreakerCard.CardState.SetTempLimit | energy-dashboard-frontend/src/components/CircuitBreakerCard.js:210 | only the edited value changes |
| BreakerCard.CardState.SaveLimit | energy-dashboard-frontend/src/components/CircuitBreakerCard.js:90-95 | a positive entry becomes the limit and closes the editor; anything else changes nothing |
| BreakerCard.CardState.ToggleRequest | energy-dashboard-frontend/src/components/CircuitBreakerCard.js:97-101 | the card's own name goes to the callback iff one is given |
| BreakerCard.PersistRoundTrip | energy-dashboard-frontend/src/components/CircuitBreakerCard.js:49-51 | a limit written back is read as the same limit on the next load |
| BreakerCard.SavedLimitPositive | energy-dashboard-frontend/src/components/CircuitBreakerCard.js:90-95 | a saved limit is a positive number, so the banner needs strictly more watts |
| BreakerCard.NaNLimitNeverExceeds | energy-dashboard-frontend/src/components/CircuitBreakerCard.js:55-56 | a NaN limit never shows the banner, while the dashboard reads the same entry as 1500 |
| BreakerCard.CardAndDashboardAgree | energy-dashboard-frontend/src/components/CircuitBreakerCard.js:49-51 | for a saved non-zero limit the card and the dashboard compare against the same watts |
| BreakerCard.AlertsSpaced | energy-dashboard-frontend/src/components/CircuitBreakerCard.js:57-83 | over any timeline, consecutive alerts are more than 30 s apart and the first is more than 30 s after the last earlier one |
| BreakerCard.AlertTimes | energy-dashboard-frontend/src/components/CircuitBreakerCard.js:57-83 | the times `onAlert` is called over a timeline: at an exceeding event when no alert was sent yet or more than 30 s have passed, which then becomes the last alert time |
| BreakerCard.EventsOf | energy-dashboard-frontend/src/components/CircuitBreakerCard.js:54-88 | one event per render: its time and whether the power exceeds the limit while the breaker is "On" |
| BreakerCard.AlertsOnlyWhenExceeded | energy-dashboard-frontend/src/components/CircuitBreakerCard.js:55-83 | every alert happens at an event where the limit was exceeded |
| EnergyChart.TimePatternsWellFormed | energy-dashboard-frontend/src/components/EnergyChart.js:17-25 | every room's pattern has 24 factors in [0.1, 1.0] |
| EnergyChart.RoomConsumptionOrdered | energy-dashboard-frontend/src/components/EnergyChart.js:28-36 | every room has min ≤ peak ≤ max |
| EnergyChart.ConsumptionOf | energy-dashboard-frontend/src/components/Dashboard.js:320 | a room's entry, or Main Panel's for an unknown name |
| EnergyChart.BaseConsumption | energy-dashboard-frontend/src/components/EnergyChart.js:42-50 | a positive range with min < max, 500–1500 for an unknown name |
| EnergyChart.BandOf | energy-dashboard-frontend/src/components/EnergyChart.js:59-71 | the bands partition the hours: 6–9 morning, 17–22 evening, ≥ 23 or ≤ 5 night, 10–16 day |
| EnergyChart.BandFactor | energy-dashboard-frontend/src/components/EnergyChart.js:59-71 | for a draw in [0, 1) each band's factor lies in its interval, all within [0.2, 1) |
| EnergyChart.PowerIn | energy-dashboard-frontend/src/components/EnergyChart.js:73 | the power lies within the breaker's [min, max] |
| EnergyChart.VoltageOf | energy-dashboard-frontend/src/components/EnergyChart.js:74 | the voltage lies in [225, 235) |
| EnergyChart.CurrentOf | energy-dashboard-frontend/src/components/EnergyChart.js:75 | current × voltage gives back the power |
| EnergyChart.CostAt | energy-dashboard-frontend/src/components/EnergyChart.js:76 | 1000 × cost equals power × rate, non-negative for non-negative inputs |
| EnergyChart.PointAt | energy-dashboard-frontend/src/components/EnergyChart.js:54-84 | the point i hours back has that time, power in range, voltage in [225, 235), consistent current and the cost at 12 per kWh |
| EnergyChart.GenerateSampleData | energy-dashboard-frontend/src/components/EnergyChart.js:39-87 | exactly 24 points, the k-th being the point 23 − k hours back |
| EnergyChart.SeriesHourly | energy-dashboard-frontend/src/components/EnergyChart.js:53-54 | the series ends at now and its points are one hour apart |
| EnergyChart.ChartState.constructor | energy-dashboard-frontend/src/components/EnergyChart.js:92-100 | a fresh 24-point series, the power view and the saved rate or 12 |
| EnergyChart.ChartState.SetViewMode | energy-dashboard-frontend/src/components/EnergyChart.js:106-110 | the view changes only for a non-null selection |
| EnergyChart.ChartState.Refresh | energy-dashboard-frontend/src/components/EnergyChart.js:118-128 | off empties the series; on replaces it by a fresh 24-point series |
| EnergyChart.ChartState.CalculateCost | energy-dashboard-frontend/src/components/EnergyChart.js:112-115 | 1000 × cost equals power × the chart's rate |
| SettingsContext.DefaultsListed | energy-dashboard-frontend/src/context/SettingsContext.js:14-27 | nine keys: light theme, notifications, default style, refresh 5, every chart series on, rate 0.12 |
| SettingsContext.InitialSettings | energy-dashboard-frontend/src/context/SettingsContext.js:14-27 | the saved object when there is one, else the defaults |
| SettingsContext.Merge | energy-dashboard-frontend/src/context/SettingsContext.js:34-39 | keys are the union; updated keys take the update's value, the others keep their previous value |
| SettingsContext.UseSettings | energy-dashboard-frontend/src/context/SettingsContext.js:5-11 | the hook throws iff there is no provider, with the source's message |
| SettingsContext.SettingsProvider.constructor | energy-dashboard-frontend/src/context/SettingsContext.js:14-32 | the provider starts from the initial settings and saves them |
| SettingsContext.SettingsProvider.UpdateSettings | energy-dashboard-frontend/src/context/SettingsContext.js:29-39 | the settings become the merge, and the saved copy follows |
| SettingsContext.MergeIdempotent | energy-dashboard-frontend/src/context/SettingsContext.js:34-39 | the same update twice equals once |
| SettingsContext.MergeEmptyIsIdentity | energy-dashboard-frontend/src/context/SettingsContext.js:34-39 | an empty update changes nothing |
| SettingsContext.MergeTwice | energy-dashboard-frontend/src/context/SettingsContext.js:34-39 | two updates in a row equal one update with their merge |
| SettingsContext.RateUpdateKeepsOthers | energy-dashboard-frontend/src/context/SettingsContext.js:34-39 | updating the rate alone keeps every other default |
| SettingsContext.ReloadRestores | energy-dashboard-frontend/src/context/SettingsContext.js:14-32 | what one provider saved is what the next one starts with |
| AuthForms.IsValidEmail | energy-dashboard-frontend/src/components/Register.js:65-66 | the test holds iff the text is three non-empty runs without white space or `@`, split by one `@` and then a `.` |
| AuthForms.NoAtNoMatch | energy-dashboard-frontend/src/components/Register.js:65 | text without `@` never matches |
| AuthForms.EmailShapeMatches | energy-dashboard-frontend/src/components/Register.js:65 | a match is exactly a non-empty plain local part before the first `@` and a plain domain with a `.` that is neither its first nor its last character |
| AuthForms.ShapeGivesMatch | energy-dashboard-frontend/src/components/Register.js:65 | a plain local part, an `@` and a plain domain with an inner `.` always match |
| AuthForms.MatchGivesShape | energy-dashboard-frontend/src/components/Register.js:65 | a match splits at its first `@` into a plain local part and a plain domain with an inner `.` |
| AuthForms.TestEmailAccepted | energy-dashboard-frontend/src/components/Login.js:59-60 | the test account's e-mail passes the form check |
| AuthForms.EmptyForm | energy-dashboard-frontend/src/components/Register.js:28-33 | every listed field starts empty and no other field exists |
| AuthForms.MessageOr | energy-dashboard-frontend/src/components/Register.js:88 | a non-empty error message is shown, otherwise the fallback |
| AuthForms.RegisterCheck | energy-dashboard-frontend/src/components/Register.js:53-76 | each message iff its check is the first to fail, in the order fill, match, e-mail, length ≥ 6; no message iff all pass |
| AuthForms.RegisterPayload | energy-dashboard-frontend/src/components/Register.js:79-83 | the service receives exactly name, e-mail and password, unmodified |
| AuthForms.RegisterPage.constructor | energy-dashboard-frontend/src/components/Register.js:28-36 | four empty fields, no error, not loading |
| AuthForms.RegisterPage.HandleChange | energy-dashboard-frontend/src/components/Register.js:38-45 | only the named field changes, and the error clears |
| AuthForms.RegisterPage.HandleSubmit | energy-dashboard-frontend/src/components/Register.js:47-92 | a failed check shows its message and calls nothing; otherwise the service is called, then success goes to /login and failure shows the message or the fallback |
| AuthForms.LoginCheck | energy-dashboard-frontend/src/components/Login.js:52-64 | "Please fill in all fields" iff a field is empty, else the e-mail message iff the pattern fails; no password length check |
| AuthForms.LoginPage.constructor | energy-dashboard-frontend/src/components/Login.js:29-35 | two empty fields, no error, not loading |
| AuthForms.LoginPage.HandleChange | energy-dashboard-frontend/src/components/Login.js:37-44 | only the named field changes, and the error clears |
| AuthForms.LoginPage.HandleSubmit | energy-dashboard-frontend/src/components/Login.js:46-75 | a failed check calls nothing; success signs the returned user in and goes to /; failure shows the message or "Invalid credentials" |
| AuthForms.ResetCheck | energy-dashboard-frontend/src/components/ResetPassword.js:55-71 | each message iff its check is the first to fail, in the order fill, match, length ≥ 6; no e-mail check |
| AuthForms.ResetPayload | energy-dashboard-frontend/src/components/ResetPassword.js:74-78 | the request carries exactly e-mail, current and new password |
| AuthForms.ResetPasswordPage.constructor | energy-dashboard-frontend/src/components/ResetPassword.js:27-37 | four empty fields, no error, no success, not loading |
| AuthForms.ResetPasswordPage.HandleChange | energy-dashboard-frontend/src/components/ResetPassword.js:38-46 | only the named field changes, and error and success clear |
| AuthForms.ResetPasswordPage.HandleSubmit | energy-dashboard-frontend/src/components/ResetPassword.js:48-89 | a failed check calls nothing; success shows the success message and goes to /login after 2000 ms; failure shows the message or the fallback |
| AuthForms.ChangeTouchesOneField | energy-dashboard-frontend/src/components/Register.js:38-45 | a change sets the named field and leaves every other field as it was |
| AuthForms.LoginAnyPassword | energy-dashboard-frontend/src/components/Login.js:51-67 | any non-empty password passes the sign-in checks |
| AuthForms.ResetIgnoresEmailShape | energy-dashboard-frontend/src/components/ResetPassword.js:55-71 | the reset checks do not depend on the e-mail's shape |
| AuthForms.MismatchBeforeEmail | energy-dashboard-frontend/src/components/Register.js:59-70 | a password mismatch is reported before a bad e-mail |

## Left out

- **HTTP plumbing:** CORS and security headers, JSON encoding, the request body stream, sessions and response codes as side effects. Responses are values. The `??` versus `.` precedence of the allowed-origin header at energy-dashboard-backend/config_secure.php:15 is not modelled.
- **SQL:** the PDO connection and the SQL engine. Tables are sequences of rows. The GROUP BY output of both report scripts is an input sequence of rows, so the `DATE(timestamp) BETWEEN` filter, the seven-day window and the `breaker_id` filter are not modelled. E-mail lookups compare exactly; MySQL's collation would also ignore case and trailing spaces.
- **Delegated library calls:** `password_hash`, `password_verify`, `filter_var` and `is_numeric` are function parameters. The salt `password_hash` draws is folded into that function, so hashing is deterministic here.
- **Numbers:** floating point, `toFixed`, `toLocaleString`, `parseFloat` and `Intl.NumberFormat` are not modelled. Numbers are exact reals, and a stored limit is either a parsed number or unreadable text (NaN).
- **Randomness and dates:** `mt_rand`, `Math.random`, `date`, `strtotime` and `NOW()` are parameters: random draws, `now`, the hour of a timestamp, and the calendar day and month length. Daylight-saving shifts are not modelled, and a day is 86400 s.
- **Browser storage:** local storage is an input. The `wattLimit_` key prefix is dropped, so limits are keyed by breaker name. An empty stored string counts as no entry. The saved settings are read back as they were written; their JSON round trip is not modelled.
- **String lengths:** PHP `strlen` counts bytes and JS `.length` counts UTF-16 units. Both are modelled as Dafny character counts, which agree on ASCII text.
- **Concurrency:** concurrency between requests is not modelled. Each request and each transaction is one atomic step; rollback is modelled as "nothing changes".
- **Deleting an account:** the delete-account row-count failure is modelled by the `fault` flag. The user's breakers, samples and settings, removed there by foreign-key cascades, are not modelled.
- **Exception details:** the `file` and `line` fields of the consumption report's error and the texts of PDO exceptions are not modelled. A failure is `ServerError` with a fixed text.
- CircuitBreakers.BreakerService.Handle: states the guards that run before the switch (rate limit, OPTIONS, 405, 401). The dispatch to List, Create, Update and Remove lives in its body and not in its ensures, because each of those methods states its own full contract.
- CircuitBreakers.BreakerService.Create: the validation rules are a parameter that must mark the three fields required, as `PostRules` does (`PostRulesRequired`). The rule texts `min:2` and `numeric` are checked through `Validation` on that parameter.
- CircuitBreakers.SortByName: sorts names in code-point order. The listing's `ORDER BY name` uses the table's MySQL collation, which is case-insensitive by default, so names differing in case or accents can come out in a different order there.
- CircuitBreakers.BreakerService.Update: assumes MySQL's strict SQL mode, where writing a status other than 'On' or 'Off' into the `ENUM('On','Off')` column (energy-dashboard-backend/migrate.php:40) raises an error and the script answers 500. Outside strict mode MySQL would store an empty string instead, and it also accepts case variants such as 'on', which the model refuses.
- SampleSeeder.InsertSampleData: has no fault path. The script runs without a transaction, so a failure after the DELETE or part-way through the INSERT loop leaves the user's old rows gone, only some new rows written, and answers 500 with the exception's text. The model covers only the run that succeeds and the missing test user.
- Accounts.UserStore.Register: models a database fault only at the INSERT. A failing duplicate-email SELECT (energy-dashboard-backend/register.php:45-46) also answers 500 with nothing changed.
- Accounts.UserStore.ResetPassword: models a database fault only at the UPDATE. A failing user SELECT (energy-dashboard-backend/reset_password.php:35-36) also answers 500 with nothing changed.
- Accounts.UserStore.DeleteAccount: models a database fault only at the DELETE. A failing user SELECT (energy-dashboard-backend/delete_account.php:34-35) also answers 500 with nothing changed.
- PowerData.GetPowerData: the per-day map keeps its dates in first-seen order and the map itself; the JSON object's key order is not modelled.
- Dashboard.DashboardState.AddAlert: the alert's id `Date.now()` and its `time` text are parameters (`now`, `time`).
- BreakerCard.CardAlert: the alert's `status: 'Active'` field is not modelled, and its numbers are kept unformatted.
- Dashboard.LimitAlert: the alert's `status: 'Active'` field, and the unit suffixes of its formatted numbers, are not modelled.
- AuthForms.RegisterPage.HandleSubmit: the `loading` flag is modelled only at the end of the submit; while the service call is awaited the browser shows it set.
- `generateCurrentData` in Dashboard.js (random readings for the cards) is not modelled; readings enter as data.
- **Authentication context:** AuthContext is not part of this model. Signing in is the `SignIn` effect.
- **Not modelled:**
  - the network clients `api.js`, `authService.js` and `powerService.js`;
  - React rendering, the chart libraries and interval scheduling;
  - `theme.js`, `App.js`, `QuickActions.js`, `Settings.js`, `RateSettings.js` and `PowerProjections.js`;
  - the migration, backup and connection-test scripts.
