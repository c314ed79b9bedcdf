# Openclerk job core in Dafny

This project models the part of Openclerk's background job runner that decides
what a queued job runs and how a job's failures are booked against the account
it works for.

- **Job routing** (`JobResolver`, job_resolver.dfy). `GenericOpenclerkJob::run`
  resolves a job type in three steps:
  - an exact-match switch of 88 case labels, where the first match wins;
  - five prefix families (`address_`, `blockcount_`, `difficulty_`,
    `markets_`, `ticker_`), each of which checks its suffix against a registry;
  - otherwise "Unknown job type".

  Handlers are tags: the model records which script would be required, not
  what the script does.
- **Failure accounting** (`FailureAccounting`, failure_accounting.dfy).
  - `findStandardJob` picks the first failure-tracked entry of the
    standard-job catalogue.
  - `passed` clears the account row's failure counter.
  - `failed` counts the failure, unless it is a CloudFlare, Incapsula or
    Blockchain exception. It then disables the row once the counter reaches
    the user's `max_failures` premium value, and e-mails the owner once.
  - The account tables and the outbox are the fields of the class
    `AccountTables`. Each SQL statement is one method on them.
- **Premium limits** (`Premium`, premium.dfy).
  - `get_premium_value`.
  - `user_limits_summary`: nested loops that count each account type's rows
    and accumulate `total_<group>` and `wizard_<wizard>` sums. The result is
    kept in a per-user cache, the class `LimitsCache`.
  - `can_user_add`.
  - The promotion-period predicates.
- **Reported currencies** (`ReportedCurrencies`, reported_currencies.dfy).
  - Look up the enabled exchange named by the job.
  - Record its name in `arg0`.
  - Dispatch over the sixteen exchanges the job supports.
- `Jobs` (jobs.dfy) holds the job record, the job exceptions and PHP's
  `substr` prefix test. `Wrappers` (wrappers.dfy) holds `Option` and `Result`.

Inputs the code reads from its environment are parameters:
- the site and premium configuration (`config: string -> int`, `allowUnsafe`,
  `PromotionConfig`);
- the registries of currencies and exchanges (`Registries`);
- the standard-job catalogue;
- the users table;
- the `COUNT(*)` query results (`count: CountQuery -> nat`);
- the exchanges table;
- the current time (`now`).

### Where the model follows the code

- `passed` resets only `failures`; it never clears `first_failure`. A new
  failure streak after a success therefore reports the first failure of an
  earlier streak (`FailureAccounting.StaleFirstFailure`).
- `passed` and `failed` both look for an entry with `failure` set. Their own
  later test of that flag can never fire, so the model has no such branch.
- `failed` re-reads the row after counting. A missing row is read as `false`.
  PHP then compares `null >= threshold` as booleans, which holds only for a
  threshold of 0. In that case the row stays missing and the user is still
  e-mailed (`FailureAccounting.MissingRowZeroThreshold`).
- `$job['arg0'] = …` in the reported-currencies job changes `run`'s local copy
  of the job. The model returns the updated job value to the dispatched script
  and does not write it back to the runner.
- `can_user_add` with an account type that has no group reads the key
  `total_` (PHP concatenation with null). A missing summary entry reads as 0.

## Model

| member | source | states |
|---|---|---|
| JobResolver.ResolveMatchesRoutes | core/GenericOpenclerkJob.php:21-448 | A job type resolves to a handler exactly when that handler's per-handler routing rule holds: an exact case and its script, or prefix + suffix with the suffix in the family's registry (both directions). |
| JobResolver.NoExactCaseHasFamilyPrefix | core/GenericOpenclerkJob.php:21-380 | No exact case label starts with any of the five family prefixes, so the prefix rules never see an exact-case type. |
| JobResolver.NoFamilyPrefixInTickerCases | core/GenericOpenclerkJob.php:23-29 | The ticker job labels carry no family prefix. |
| JobResolver.NoFamilyPrefixInAccountCasesA | core/GenericOpenclerkJob.php:32-118 | The first part of the account job labels carries no family prefix. |
| JobResolver.NoFamilyPrefixInAccountCasesB | core/GenericOpenclerkJob.php:120-206 | The second part of the account job labels carries no family prefix. |
| JobResolver.NoFamilyPrefixInAccountCasesC | core/GenericOpenclerkJob.php:208-294 | The third part of the account job labels carries no family prefix. |
| JobResolver.NoFamilyPrefixInOtherCases | core/GenericOpenclerkJob.php:297-380 | The securities, summary, system and cleanup job labels carry no family prefix. |
| JobResolver.DuplicateBit2c | core/GenericOpenclerkJob.php:36-242 | "bit2c" is labelled twice (first at case 3, again at case 54). The first case wins, and both require the same script "bit2c". |
| JobResolver.NotAnExactCase | core/GenericOpenclerkJob.php:21-380 | A type that is empty, or starts with a character no case label starts with, is not an exact case. |
| JobResolver.UnknownWidget | core/GenericOpenclerkJob.php:441-448 | "unknown_widget" raises "Unknown job type" with that type. |
| JobResolver.FamiliesExclusive | core/GenericOpenclerkJob.php:383-439 | At most one prefix family matches any type, so the order in which the families are tried does not matter. |
| JobResolver.ResolveAddressJob | core/GenericOpenclerkJob.php:383-399 | For `address_` + c: an invalid address currency is an error; a balance currency goes to the discovered handler; otherwise the currency needs its own include, and a missing include is an error. |
| JobResolver.ResolveBlockcountJob | core/GenericOpenclerkJob.php:401-409 | `blockcount_` + c goes to the discovered handler iff c is a block currency; otherwise it is the invalid-block-currency error. |
| JobResolver.ResolveDifficultyJob | core/GenericOpenclerkJob.php:411-419 | `difficulty_` + c goes to the discovered handler iff c is a difficulty currency; otherwise it is an error. |
| JobResolver.ResolveMarketsJob | core/GenericOpenclerkJob.php:421-429 | `markets_` + e goes to the discovered handler iff e is an exchange key; otherwise it is the invalid-exchange error. |
| JobResolver.ResolveTickerJob | core/GenericOpenclerkJob.php:431-439 | `ticker_` + e goes to the discovered handler iff e is an exchange key; otherwise it is the invalid-exchange error. |
| JobResolver.FamilyJob | core/GenericOpenclerkJob.php:383-439 | A prefix + suffix type is no exact case, matches exactly its own family, and its suffix (`substr` after the prefix) is the given suffix. |
| JobResolver.ResolveUnknown | core/GenericOpenclerkJob.php:441-448 | "Unknown job type" is raised iff the type matches no exact case and no family prefix, and it names that type. |
| JobResolver.AllowUnsafeAddsNoRoutes | core/GenericOpenclerkJob.php:441-446 | The `allow_unsafe` site option does not change any resolution; the guarded switch is empty, so the resolver does not read the option at all. |
| JobResolver.TickerOfUnknownExchange | core/GenericOpenclerkJob.php:431-436 | `ticker_btce` with btce not an exchange key raises the invalid-exchange error for "btce". |
| JobResolver.PrefixChars | core/GenericOpenclerkJob.php:383 | A type that passes a prefix test has the prefix's first, second and last characters in those places. |
| JobResolver.FamilyPrefixChars | core/GenericOpenclerkJob.php:383-431 | Each of the five families' prefix tests pins the type's length and its characters at those positions. |
| Jobs.PrefixSplit | core/GenericOpenclerkJob.php:383-385 | A type equals prefix + rest iff it passes the prefix test and `substr` after the prefix returns rest. |
| FailureAccounting.FindStandardJob | core/GenericOpenclerkJob.php:557-570 | Returns the first catalogue entry whose `failure` is set and whose type is the job's. The result is none iff no entry qualifies, and an entry with `failure` unset is never returned. |
| FailureAccounting.AccountTables.Passed | core/GenericOpenclerkJob.php:453-472 | The tables become `PassedRows` of the old tables, and no e-mail is sent. |
| FailureAccounting.AccountTables.Failed | core/GenericOpenclerkJob.php:479-555 | The tables become the rows of `FailedOutcome`, and its e-mails are appended to the outbox in order. |
| FailureAccounting.AccountTables.UpdateResetFailures | core/GenericOpenclerkJob.php:470-471 | The reset statement: only the row's counter becomes 0. |
| FailureAccounting.AccountTables.UpdateCountFailure | core/GenericOpenclerkJob.php:516-517 | The counting statement: the counter goes up by one, and the first failure becomes now only if it was unset. |
| FailureAccounting.AccountTables.UpdateDisable | core/GenericOpenclerkJob.php:534-535 | The disabling statement sets only the row's disabled flag. |
| FailureAccounting.AccountTables.SelectAccount | core/GenericOpenclerkJob.php:527-529 | The re-read returns the row, or nothing when there is no row. |
| FailureAccounting.AccountTables.SendEmail | core/GenericOpenclerkJob.php:538-548 | Appends one notification and leaves the tables alone. |
| FailureAccounting.PassedResetsOnlyCounter | core/GenericOpenclerkJob.php:453-472 | On a tracked job, only `failures` of row `arg_id` becomes 0. Its first failure, its disabled flag and every other row are unchanged. An untracked job changes nothing. |
| FailureAccounting.PassedIdempotent | core/GenericOpenclerkJob.php:469-471 | A second `passed` changes nothing more. |
| FailureAccounting.FailedCounts | core/GenericOpenclerkJob.php:508-519 | An ignorable exception keeps the counter and the first failure. Any other raises the counter by exactly 1 and sets the first failure to now only if it was unset. |
| FailureAccounting.FailedFrame | core/GenericOpenclerkJob.php:479-555 | `failed` keeps the set of rows and changes no row but its own standard job's row `arg_id`. On an untracked job it changes nothing and sends nothing. |
| FailureAccounting.FailedUnknownUser | core/GenericOpenclerkJob.php:521-524 | With no such user, no row's disabled flag changes and no e-mail is sent. |
| FailureAccounting.FailedDisablesAtThreshold | core/GenericOpenclerkJob.php:526-535 | With a known user, the row ends disabled iff it was disabled before or its re-read counter reaches the user's `max_failures`. Below the threshold the flag is unchanged, and the test runs after ignorable exceptions too. |
| FailureAccounting.FailedNotifiesOnce | core/GenericOpenclerkJob.php:521-553 | At most one e-mail is sent. One is sent iff the user exists, the re-read counter reaches the threshold, the user has an e-mail address and the row was enabled at the re-read. It carries the user, the table, the row id, the re-read counter and first failure, and the exception message. |
| FailureAccounting.NeverReenables | core/GenericOpenclerkJob.php:453-555 | Neither `passed` nor `failed` ever clears a disabled flag. |
| FailureAccounting.DisablementBoundary | core/GenericOpenclerkJob.php:508-553 | With threshold 3 and 2 earlier failures, a counted failure disables the row and sends exactly one e-mail. The next failure leaves it disabled and sends none. |
| FailureAccounting.MissingRowZeroThreshold | core/GenericOpenclerkJob.php:527-539 | A missing row with threshold 0: no row changes, and one e-mail (failure count 0) is still sent. |
| FailureAccounting.FailureStreak | core/GenericOpenclerkJob.php:516-517 | n counted failures raise the counter by n and keep the disabled flag. The first failure is set by the first of them if it was unset, and otherwise kept. |
| FailureAccounting.StaleFirstFailure | core/GenericOpenclerkJob.php:470-517 | A reset followed by a failure gives counter 1 with the first failure of the earlier streak. |
| Premium.PremiumKeyInjective | inc/premium.php:74 | Distinct (group, tier) pairs read distinct configuration keys. |
| Premium.PeriodsAgreeOnceStarted | inc/premium.php:95-109 | With a leadup no later than the start, the two periods agree from the start on (they share the end), and before the start only the leadup can hold. |
| Premium.LeadupCoversPromotion | inc/premium.php:95-109 | When the leadup starts no later than the promotion, every moment of the promotion is also in the leadup. |
| Premium.SummaryKeysDistinct | inc/premium.php:34-45 | Total and wizard keys never collide, and each determines its group or wizard. |
| Premium.PlainKeyIsNoSummaryKey | inc/premium.php:31-45 | An account key without a `total_`/`wizard_` prefix is never a total or wizard key. |
| Premium.TallyTotal | inc/premium.php:34-37 | Each `total_<g>` is the sum of the counts of the considered entries of group g. |
| Premium.TallyWizard | inc/premium.php:39-45 | Each `wizard_<w>` is the sum of the counts of the considered entries with wizard w. Entries without a wizard add nothing. |
| Premium.TallyKeepsKey | inc/premium.php:19-47 | An account key that no considered entry carries is neither added nor changed. |
| Premium.TallyKeyCount | inc/premium.php:29-32 | Each considered entry's key maps to the count over its table for the user. Disabled rows are left out iff the entry has `failure`, and its extra query is applied. |
| Premium.SkippedKeyAbsent | inc/premium.php:21-27 | Entries without a group, and unsafe entries while unsafe exchanges are not allowed, leave no key in the summary. |
| Premium.ComputeSummary | inc/premium.php:17-47 | The nested loops build exactly `Summary`: the fold of the inner-loop step over the flattened account data. |
| Premium.CanAddCountsGroup | inc/premium.php:58-64 | Against a freshly computed summary, `can_user_add` holds iff the group's summed counts plus the amount are within the limit. |
| Premium.LimitsCache.UserLimitsSummary | inc/premium.php:14-53 | A cached user gets the cached summary, and the cache is unchanged. Otherwise the summary is computed and stored under the user id. |
| Premium.LimitsCache.CanUserAdd | inc/premium.php:58-64 | The result is `total_<group>` of the user's (cached) summary plus the amount (default 1), compared `<=` with the user's premium value for the group. |
| Premium.LimitsCache.constructor | inc/premium.php:7 | The cache starts empty. |
| Premium.SummaryIsCached | inc/premium.php:16-52 | Two summaries of one user agree even when the table counts changed in between. |
| ReportedCurrencies.RouteErrors | jobs/reported_currencies.php:8-86 | "Cannot find an exchange" iff the row is missing or disabled. "Unknown exchange" iff the row is enabled but its name is not one of the sixteen. |
| ReportedCurrencies.RouteDispatches | jobs/reported_currencies.php:8-83 | Dispatch happens iff the row is enabled and its name is listed. The job then differs only in `arg0` (the name), and the script is the exchange's own. |
| ReportedCurrencies.ReportedExchangesDistinct | jobs/reported_currencies.php:19-83 | The sixteen case labels are pairwise distinct. |
| ReportedCurrencies.DispatchInjective | jobs/reported_currencies.php:19-83 | Two dispatches to the same script come from the same exchange name. |

## Left out

- PHP's loose comparison: the job-type test in `findStandardJob`
  (core/GenericOpenclerkJob.php:564), the `switch` of `run`
  (core/GenericOpenclerkJob.php:21), the registry tests with `in_array`
  (core/GenericOpenclerkJob.php:386, 389, 404, 414, 424, 434) and the `switch`
  over exchange names (jobs/reported_currencies.php:19) all compare loosely, so
  numeric-looking strings such as "796" and "0796" would match each other. The
  model compares strings exactly.
- `require`, `file_exists` and `safe_include_arg`: handlers are tags, and the
  existence of `jobs/addresses/<c>.php` is the registry set `addressIncludes`.
  The handler scripts themselves are not part of this model.
- The registry functions (`get_address_currencies` and the discovered currency
  and exchange lists) are parameters, because their contents are not part of
  this model.
- SQL, prepared statements and the database: each statement is one atomic
  update of an in-memory map. Concurrent workers are not modelled.
- The nested `foreach` of `failed` that finds the account data for its label
  and links (core/GenericOpenclerkJob.php:497-505): it only feeds the e-mail's
  wording.
- The e-mail's formatting: `number_format`, `recent_format`, `strtotime` of
  the first failure, `get_exchange_name`, the title and URL. A notification
  records only the user, row, counter, first failure and message. Logging is
  left out too.
- `htmlspecialchars` and the exact message texts of the exceptions: each
  exception is a `JobError` variant carrying its argument.
- `time()` and `strtotime`: timestamps are integers passed in.
- The pricing functions `get_premium_price`, `get_premium_price_discount`,
  `get_text_premium_prices` and `get_html_premium_prices`
  (inc/premium.php:80-137): floating-point arithmetic, `wrap_number` rounding
  and text formatting.
- `get_account_data` and `get_user`: their results are inputs (`data`,
  `users`).
- `can_user_add`'s trailing `throw` (inc/premium.php:66) follows a `return`
  and is unreachable, so it is not modelled.
- Premium.TallyTotal, Premium.TallyWizard and Premium.CanAddCountsGroup
  require that no account-type key starts with `total_` or `wizard_`
  (`NoSummaryKeyClash`). Such a key would be overwritten by, or add into, a
  sum. `Premium.ComputeSummary` still models that behaviour exactly, but the
  sum lemmas say nothing about it.
- ReportedCurrencies.Route: the per-exchange scripts are tags, and what they
  insert is not modelled.
