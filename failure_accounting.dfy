/** Failure accounting of GenericOpenclerkJob: findStandardJob, passed and
    failed. A standard job names the table holding its account rows; a
    success clears the row's failure counter, a failure that counts raises
    it, and once the counter reaches the user's threshold the row is
    disabled and the owner is told, once. Each SQL statement is one atomic
    update of an in-memory table map. */
module FailureAccounting {
  import opened Wrappers
  import opened Jobs
  import opened Premium

  // ---------------------------------------------------------------------
  // The standard job catalogue and findStandardJob

  /** An entry of OpenclerkJobQueuer::getStandardJobs(), with the fields the
      failure accounting reads. */
  datatype StandardJob = StandardJob(jobType: string, failure: bool, table: string)

  /** The entry is failure-tracked and describes this job type. */
  predicate Tracks(s: StandardJob, jobType: string) {
    s.failure && s.jobType == jobType
  }

  /** The first failure-tracked entry for the job type, if any. */
  function FirstTracked(catalogue: seq<StandardJob>, jobType: string): Option<StandardJob>
    decreases |catalogue|
  {
    if catalogue == [] then None
    else if Tracks(catalogue[0], jobType) then Some(catalogue[0])
    else FirstTracked(catalogue[1..], jobType)
  }

  /** findStandardJob: the loop over the catalogue that returns the first
      entry with `failure` set whose type is the job's, or nothing. */
  method FindStandardJob(catalogue: seq<StandardJob>, jobType: string) returns (r: Option<StandardJob>)
    ensures r == FirstTracked(catalogue, jobType)
    ensures r.None? <==> forall i | 0 <= i < |catalogue| :: !Tracks(catalogue[i], jobType)
    ensures r.Some? ==> Tracks(r.value, jobType) && exists i | 0 <= i < |catalogue| ::
      catalogue[i] == r.value && forall j | 0 <= j < i :: !Tracks(catalogue[j], jobType)
  {
    var i := 0;
    while i < |catalogue|
      invariant 0 <= i <= |catalogue|
      invariant forall j | 0 <= j < i :: !Tracks(catalogue[j], jobType)
      invariant FirstTracked(catalogue[i..], jobType) == FirstTracked(catalogue, jobType)
    {
      var standard := catalogue[i];
      assert catalogue[i..][0] == standard && catalogue[i..][1..] == catalogue[i + 1..];
      if standard.failure && standard.jobType == jobType {
        return Some(standard);
      }
      i := i + 1;
    }
    return None;
  }

  // ---------------------------------------------------------------------
  // Account rows and the SQL statements on them

  /** The failure columns of an account row. */
  datatype Account = Account(failures: nat, firstFailure: Option<int>, isDisabled: bool)

  /** A row is named by its table and its id. */
  datatype RowKey = RowKey(table: string, id: int)

  type Rows = map<RowKey, Account>

  /** UPDATE t SET failures=0 WHERE id=? */
  function ResetFailures(rows: Rows, key: RowKey): Rows {
    if key in rows then rows[key := rows[key].(failures := 0)] else rows
  }

  /** UPDATE t SET failures=failures+1,
        first_failure=IF(ISNULL(first_failure), NOW(), first_failure) WHERE id=? */
  function CountFailure(rows: Rows, key: RowKey, now: int): Rows {
    if key in rows then
      var a := rows[key];
      rows[key := a.(failures := a.failures + 1,
                     firstFailure := if a.firstFailure.None? then Some(now) else a.firstFailure)]
    else rows
  }

  /** UPDATE t SET is_disabled=1 WHERE id=? */
  function Disable(rows: Rows, key: RowKey): Rows {
    if key in rows then rows[key := rows[key].(isDisabled := true)] else rows
  }

  /** SELECT * FROM t WHERE id=? LIMIT 1 */
  function Fetch(rows: Rows, key: RowKey): Option<Account> {
    if key in rows then Some(rows[key]) else None
  }

  // ---------------------------------------------------------------------
  // Failures, thresholds, notifications

  /** The exception classes `failed` distinguishes. CloudFlareBlock and
      IncapsulaBlock each stand for the two classes of that name the source
      accepts (its own namespace's and the Openclerk APIs'); BlockchainUnavailable
      stands for the one Core class, which the source names twice. */
  datatype FailureKind = CloudFlareBlock | IncapsulaBlock | BlockchainUnavailable | OtherFailure

  datatype JobFailure = JobFailure(kind: FailureKind, message: string)

  /** CloudFlare, Incapsula and Blockchain exceptions do not count. */
  predicate Ignorable(kind: FailureKind) {
    kind.CloudFlareBlock? || kind.IncapsulaBlock? || kind.BlockchainUnavailable?
  }

  /** PHP truthiness of a string. */
  predicate Truthy(s: string) {
    s != "" && s != "0"
  }

  /** `$account['failures'] >= threshold` on the fetched row. A missing row is
      fetched as false, whose failures read as null, and null >= t compares
      as booleans: it holds only for a zero threshold. */
  predicate ReachesThreshold(account: Option<Account>, threshold: int) {
    match account
    case Some(a) => a.failures >= threshold
    case None => threshold == 0
  }

  /** `!$account['is_disabled']` on the fetched row; true for a missing row. */
  predicate WasEnabled(account: Option<Account>) {
    account.None? || !account.value.isDisabled
  }

  /** The "failure" e-mail, reduced to the facts it reports. */
  datatype Notification = Notification(
    userId: int, email: string, name: string,
    table: string, argId: int, failures: nat, message: string, firstFailure: Option<int>)

  function Notice(user: User, key: RowKey, account: Option<Account>, failure: JobFailure): Notification {
    Notification(user.id, user.email, if Truthy(user.name) then user.name else user.email,
                 key.table, key.id,
                 if account.Some? then account.value.failures else 0,
                 failure.message,
                 if account.Some? then account.value.firstFailure else None)
  }

  /** The threshold `failed` compares against. */
  function MaxFailures(user: User, config: string -> int): int {
    PremiumValue(user, "max_failures", config)
  }

  /** The rows after a call and the e-mails it sent. */
  datatype Outcome = Outcome(rows: Rows, sent: seq<Notification>)

  /** The rows after `passed`. */
  function PassedRows(rows: Rows, catalogue: seq<StandardJob>, job: Job): Rows {
    match FirstTracked(catalogue, job.jobType)
    case None => rows
    case Some(s) => ResetFailures(rows, RowKey(s.table, job.argId))
  }

  /** The rows after the counting step of `failed`. */
  function CountedRows(rows: Rows, key: RowKey, failure: JobFailure, now: int): Rows {
    if Ignorable(failure.kind) then rows else CountFailure(rows, key, now)
  }

  /** The outcome of `failed`. */
  function FailedOutcome(rows: Rows, catalogue: seq<StandardJob>, job: Job, failure: JobFailure,
                         users: map<int, User>, config: string -> int, now: int): Outcome
  {
    match FirstTracked(catalogue, job.jobType)
    case None => Outcome(rows, [])
    case Some(s) =>
      var key := RowKey(s.table, job.argId);
      var counted := CountedRows(rows, key, failure, now);
      if job.userId !in users then Outcome(counted, [])
      else
        var user := users[job.userId];
        var account := Fetch(counted, key);
        if !ReachesThreshold(account, MaxFailures(user, config)) then Outcome(counted, [])
        else
          Outcome(Disable(counted, key),
                  if Truthy(user.email) && WasEnabled(account) then [Notice(user, key, account, failure)] else [])
  }

  // ---------------------------------------------------------------------
  // The tables and the two outcome handlers

  class AccountTables {
    var rows: Rows
    /** The e-mails sent so far. */
    var outbox: seq<Notification>

    constructor (initial: Rows)
      ensures rows == initial && outbox == []
    {
      rows := initial;
      outbox := [];
    }

    method UpdateResetFailures(key: RowKey)
      modifies this
      ensures rows == ResetFailures(old(rows), key) && outbox == old(outbox)
    {
      if key in rows {
        rows := rows[key := rows[key].(failures := 0)];
      }
    }

    method UpdateCountFailure(key: RowKey, now: int)
      modifies this
      ensures rows == CountFailure(old(rows), key, now) && outbox == old(outbox)
    {
      if key in rows {
        var a := rows[key];
        var first := if a.firstFailure.None? then Some(now) else a.firstFailure;
        rows := rows[key := a.(failures := a.failures + 1, firstFailure := first)];
      }
    }

    method UpdateDisable(key: RowKey)
      modifies this
      ensures rows == Disable(old(rows), key) && outbox == old(outbox)
    {
      if key in rows {
        rows := rows[key := rows[key].(isDisabled := true)];
      }
    }

    method SelectAccount(key: RowKey) returns (account: Option<Account>)
      ensures account == Fetch(rows, key)
    {
      account := if key in rows then Some(rows[key]) else None;
    }

    method SendEmail(n: Notification)
      modifies this
      ensures rows == old(rows) && outbox == old(outbox) + [n]
    {
      outbox := outbox + [n];
    }

    /** passed: on a failure-tracked standard job, clear the row's counter. */
    method Passed(job: Job, catalogue: seq<StandardJob>)
      modifies this
      ensures rows == PassedRows(old(rows), catalogue, job) && outbox == old(outbox)
    {
      var standard := FindStandardJob(catalogue, job.jobType);
      if standard.None? {
        return;
      }
      UpdateResetFailures(RowKey(standard.value.table, job.argId));
    }

    /** failed: count the failure unless it is ignorable; then, if the user
        exists, re-read the row and disable it once it has reached the
        threshold, e-mailing the user if the row was enabled before. */
    method Failed(job: Job, failure: JobFailure, catalogue: seq<StandardJob>,
                  users: map<int, User>, config: string -> int, now: int)
      modifies this
      ensures var o := FailedOutcome(old(rows), catalogue, job, failure, users, config, now);
        rows == o.rows && outbox == old(outbox) + o.sent
    {
      var standard := FindStandardJob(catalogue, job.jobType);
      if standard.None? {
        return;
      }
      var key := RowKey(standard.value.table, job.argId);
      if !Ignorable(failure.kind) {
        UpdateCountFailure(key, now);
      }
      if job.userId !in users {
        return;
      }
      var user := users[job.userId];
      var account := SelectAccount(key);
      if ReachesThreshold(account, MaxFailures(user, config)) {
        UpdateDisable(key);
        if Truthy(user.email) && WasEnabled(account) {
          SendEmail(Notice(user, key, account, failure));
        }
      }
    }
  }

  // ---------------------------------------------------------------------
  // Properties of the outcome handlers

  /** `passed` on a tracked job sets only the counter of row `arg_id` to 0:
      its first failure and disabled flag stay, and so do all other rows. On
      an untracked job it changes nothing. */
  lemma PassedResetsOnlyCounter(rows: Rows, catalogue: seq<StandardJob>, job: Job, k: RowKey)
    ensures var after := PassedRows(rows, catalogue, job);
      && after.Keys == rows.Keys
      && (FirstTracked(catalogue, job.jobType).None? ==> after == rows)
      && (k in rows ==> match FirstTracked(catalogue, job.jobType)
          case None => after[k] == rows[k]
          case Some(s) =>
            if k == RowKey(s.table, job.argId) then after[k] == rows[k].(failures := 0)
            else after[k] == rows[k])
  {
  }

  /** A second success changes nothing more. */
  lemma PassedIdempotent(rows: Rows, catalogue: seq<StandardJob>, job: Job)
    ensures PassedRows(PassedRows(rows, catalogue, job), catalogue, job) == PassedRows(rows, catalogue, job)
  {
    match FirstTracked(catalogue, job.jobType)
    case None =>
    case Some(s) =>
      var key := RowKey(s.table, job.argId);
      var once := ResetFailures(rows, key);
      assert ResetFailures(once, key) == once;
  }

  /** An ignorable failure leaves the counter and the first failure alone;
      any other raises the counter by exactly one and sets the first failure
      to now only if it was unset. */
  lemma FailedCounts(rows: Rows, catalogue: seq<StandardJob>, job: Job, failure: JobFailure,
                     users: map<int, User>, config: string -> int, now: int, s: StandardJob)
    requires FirstTracked(catalogue, job.jobType) == Some(s)
    requires RowKey(s.table, job.argId) in rows
    ensures var key := RowKey(s.table, job.argId);
      var before := rows[key];
      var after := FailedOutcome(rows, catalogue, job, failure, users, config, now).rows[key];
      && (Ignorable(failure.kind) ==>
            after.failures == before.failures && after.firstFailure == before.firstFailure)
      && (!Ignorable(failure.kind) ==>
            && after.failures == before.failures + 1
            && after.firstFailure == (if before.firstFailure.None? then Some(now) else before.firstFailure))
  {
  }

  /** `failed` touches at most the row of its own standard job, and nothing
      at all on an untracked job. */
  lemma FailedFrame(rows: Rows, catalogue: seq<StandardJob>, job: Job, failure: JobFailure,
                    users: map<int, User>, config: string -> int, now: int, k: RowKey)
    ensures var o := FailedOutcome(rows, catalogue, job, failure, users, config, now);
      && o.rows.Keys == rows.Keys
      && (FirstTracked(catalogue, job.jobType).None? ==> o == Outcome(rows, []))
      && (k in rows && (FirstTracked(catalogue, job.jobType).Some? ==>
            k != RowKey(FirstTracked(catalogue, job.jobType).value.table, job.argId))
          ==> o.rows[k] == rows[k])
  {
  }

  /** Without a user nothing is disabled and nobody is told. */
  lemma FailedUnknownUser(rows: Rows, catalogue: seq<StandardJob>, job: Job, failure: JobFailure,
                          users: map<int, User>, config: string -> int, now: int, k: RowKey)
    requires job.userId !in users
    requires k in rows
    ensures var o := FailedOutcome(rows, catalogue, job, failure, users, config, now);
      o.sent == [] && o.rows[k].isDisabled == rows[k].isDisabled
  {
  }

  /** With a known user, the row ends up disabled exactly when it already was
      or its counter after the counting step reaches the user's threshold;
      the threshold test runs after ignorable failures too. */
  lemma FailedDisablesAtThreshold(rows: Rows, catalogue: seq<StandardJob>, job: Job, failure: JobFailure,
                                  users: map<int, User>, config: string -> int, now: int, s: StandardJob)
    requires FirstTracked(catalogue, job.jobType) == Some(s)
    requires RowKey(s.table, job.argId) in rows && job.userId in users
    ensures var key := RowKey(s.table, job.argId);
      var failures := rows[key].failures + (if Ignorable(failure.kind) then 0 else 1);
      (FailedOutcome(rows, catalogue, job, failure, users, config, now).rows[key].isDisabled
       <==> rows[key].isDisabled || failures >= MaxFailures(users[job.userId], config))
  {
  }

  /** At most one e-mail is sent, and one is sent exactly when the row is
      disabled by this call while it was enabled before, and the user has an
      address; it reports the counter and first failure read after the
      counting step, and the exception's message. */
  lemma FailedNotifiesOnce(rows: Rows, catalogue: seq<StandardJob>, job: Job, failure: JobFailure,
                           users: map<int, User>, config: string -> int, now: int, s: StandardJob)
    requires FirstTracked(catalogue, job.jobType) == Some(s)
    requires RowKey(s.table, job.argId) in rows
    ensures var key := RowKey(s.table, job.argId);
      var o := FailedOutcome(rows, catalogue, job, failure, users, config, now);
      var counted := CountedRows(rows, key, failure, now)[key];
      && |o.sent| <= 1
      && (|o.sent| == 1 <==>
            && job.userId in users
            && counted.failures >= MaxFailures(users[job.userId], config)
            && Truthy(users[job.userId].email)
            && !rows[key].isDisabled)
      && (|o.sent| == 1 ==>
            && o.sent[0].userId == users[job.userId].id && o.sent[0].email == users[job.userId].email
            && o.sent[0].table == s.table && o.sent[0].argId == job.argId
            && o.sent[0].failures == counted.failures && o.sent[0].firstFailure == counted.firstFailure
            && o.sent[0].message == failure.message)
  {
  }

  /** Neither handler ever re-enables a row. */
  lemma NeverReenables(rows: Rows, catalogue: seq<StandardJob>, job: Job, failure: JobFailure,
                       users: map<int, User>, config: string -> int, now: int, k: RowKey)
    requires k in rows && rows[k].isDisabled
    ensures PassedRows(rows, catalogue, job)[k].isDisabled
    ensures FailedOutcome(rows, catalogue, job, failure, users, config, now).rows[k].isDisabled
  {
  }

  /** With a threshold of 3, a third countable failure disables an enabled
      row and sends one e-mail; a further failure on the disabled row sends
      none and the row stays disabled. */
  lemma DisablementBoundary(rows: Rows, catalogue: seq<StandardJob>, job: Job, message: string,
                            users: map<int, User>, now: int, later: int, s: StandardJob)
    requires FirstTracked(catalogue, job.jobType) == Some(s)
    requires job.userId in users && Truthy(users[job.userId].email)
    requires RowKey(s.table, job.argId) in rows
    requires rows[RowKey(s.table, job.argId)].failures == 2 && !rows[RowKey(s.table, job.argId)].isDisabled
    ensures var key := RowKey(s.table, job.argId);
      var failure := JobFailure(OtherFailure, message);
      var o := FailedOutcome(rows, catalogue, job, failure, users, _ => 3, now);
      var o' := FailedOutcome(o.rows, catalogue, job, failure, users, _ => 3, later);
      && o.rows[key].isDisabled && o.rows[key].failures == 3 && |o.sent| == 1
      && o'.rows[key].isDisabled && o'.rows[key].failures == 4 && o'.sent == []
  {
    var key := RowKey(s.table, job.argId);
    var failure := JobFailure(OtherFailure, message);
    FailedNotifiesOnce(rows, catalogue, job, failure, users, _ => 3, now, s);
    var o := FailedOutcome(rows, catalogue, job, failure, users, _ => 3, now);
    FailedNotifiesOnce(o.rows, catalogue, job, failure, users, _ => 3, later, s);
  }

  /** A missing row is read as false: with a zero threshold it is "disabled"
      (the update matches nothing) and the user is e-mailed anyway. */
  lemma MissingRowZeroThreshold(rows: Rows, catalogue: seq<StandardJob>, job: Job, failure: JobFailure,
                                users: map<int, User>, config: string -> int, now: int, s: StandardJob)
    requires FirstTracked(catalogue, job.jobType) == Some(s)
    requires RowKey(s.table, job.argId) !in rows
    requires job.userId in users && Truthy(users[job.userId].email)
    requires MaxFailures(users[job.userId], config) == 0
    ensures var o := FailedOutcome(rows, catalogue, job, failure, users, config, now);
      o.rows == rows && |o.sent| == 1 && o.sent[0].failures == 0
  {
  }

  // ---------------------------------------------------------------------
  // Failure streaks

  /** A run of countable failures at the given times. */
  function CountFailures(rows: Rows, key: RowKey, times: seq<int>): Rows
    decreases |times|
  {
    if times == [] then rows else CountFailures(CountFailure(rows, key, times[0]), key, times[1..])
  }

  /** n countable failures in a row raise the counter by n, whatever the
      interleaving; the first failure is set by the first of them if it was
      unset, and is never overwritten. */
  lemma {:induction false} FailureStreak(rows: Rows, key: RowKey, times: seq<int>)
    requires key in rows
    ensures var after := CountFailures(rows, key, times);
      && key in after
      && after[key].failures == rows[key].failures + |times|
      && after[key].isDisabled == rows[key].isDisabled
      && after[key].firstFailure == (if rows[key].firstFailure.None? && times != [] then Some(times[0])
                                     else rows[key].firstFailure)
    decreases |times|
  {
    if times != [] {
      FailureStreak(CountFailure(rows, key, times[0]), key, times[1..]);
    }
  }

  /** Clearing the counter does not clear the first failure: after a success,
      the next failure keeps the timestamp of an earlier streak. */
  lemma StaleFirstFailure(rows: Rows, key: RowKey, earlier: int, now: int)
    requires key in rows && rows[key].firstFailure == Some(earlier)
    ensures CountFailure(ResetFailures(rows, key), key, now)[key]
      == Account(1, Some(earlier), rows[key].isDisabled)
  {
  }
}
