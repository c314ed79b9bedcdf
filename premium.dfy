/** inc/premium.php: the per-tier configuration values (the failure
    threshold among them), the per-user summary of account counts with its
    cache, the "can the user add another" limit check, and the promotion
    periods. Configuration values and database counts are inputs. */
module Premium {
  import opened Wrappers
  import opened Jobs

  /** The user fields the core reads. */
  datatype User = User(id: int, email: string, name: string, isPremium: bool)

  // ---------------------------------------------------------------------
  // get_premium_value

  /** The key of the premium configuration that holds a group's value for a
      tier: the group, an underscore, then "premium" or "free". */
  function PremiumKey(group: string, isPremium: bool): string {
    group + "_" + (if isPremium then "premium" else "free")
  }

  /** get_premium_value: the configured value of `group` for the user's tier.
      `config` stands for get_premium_config. */
  function PremiumValue(user: User, group: string, config: string -> int): int {
    config(PremiumKey(group, user.isPremium))
  }

  /** Distinct (group, tier) pairs read distinct keys: no group's premium
      value can be mistaken for another group's value or for the other tier. */
  lemma PremiumKeyInjective(g1: string, p1: bool, g2: string, p2: bool)
    requires PremiumKey(g1, p1) == PremiumKey(g2, p2)
    ensures g1 == g2 && p1 == p2
  {
    var k := PremiumKey(g1, p1);
    var s1 := "_" + (if p1 then "premium" else "free");
    var s2 := "_" + (if p2 then "premium" else "free");
    assert k == g1 + s1 && k == g2 + s2;
    assert k[|k| - 1] == s1[|s1| - 1] == s2[|s2| - 1];
    assert p1 == p2;
    assert |g1| == |g2|;
    assert g1 == k[..|g1|] == g2;
  }

  // ---------------------------------------------------------------------
  // in_premium_promotion_period, in_premium_promotion_leadup_period

  /** The three promotion bounds of the site configuration, as timestamps;
      None when the option is unset or false. */
  datatype PromotionConfig = PromotionConfig(leadup: Option<int>, starts: Option<int>, ends: Option<int>)

  predicate InPromotionPeriod(cfg: PromotionConfig, now: int) {
    if cfg.starts.Some? && cfg.ends.Some? then now >= cfg.starts.value && now <= cfg.ends.value
    else false
  }

  predicate InPromotionLeadupPeriod(cfg: PromotionConfig, now: int) {
    if cfg.leadup.Some? && cfg.ends.Some? then now >= cfg.leadup.value && now <= cfg.ends.value
    else false
  }

  /** A leadup that begins no later than the promotion covers the promotion. */
  lemma LeadupCoversPromotion(cfg: PromotionConfig, now: int)
    requires cfg.leadup.Some? && cfg.starts.Some? && cfg.leadup.value <= cfg.starts.value
    ensures InPromotionPeriod(cfg, now) ==> InPromotionLeadupPeriod(cfg, now)
  {
  }

  /** Once the promotion has started, the two periods coincide: both end at
      the same configured moment. Before the start, only the leadup can
      hold. */
  lemma PeriodsAgreeOnceStarted(cfg: PromotionConfig, now: int)
    requires cfg.leadup.Some? && cfg.starts.Some? && cfg.leadup.value <= cfg.starts.value
    ensures now >= cfg.starts.value ==> (InPromotionPeriod(cfg, now) <==> InPromotionLeadupPeriod(cfg, now))
    ensures now < cfg.starts.value ==> !InPromotionPeriod(cfg, now)
  {
  }

  // ---------------------------------------------------------------------
  // user_limits_summary

  /** One entry of account_data_grouped(), with the fields the summary reads:
      its key, the optional `group` and `wizard`, the `unsafe` and `failure`
      flags, its table and the optional extra SQL condition `query`. */
  datatype AccountType = AccountType(
    key: string,
    group: Option<string>,
    wizard: Option<string>,
    unsafe: bool,
    failure: bool,
    table: string,
    query: Option<string>)

  /** The SELECT COUNT(*) issued for one entry: rows of `table` owned by
      `userId`, only the enabled ones when `enabledOnly`, narrowed by `extra`. */
  datatype CountQuery = CountQuery(table: string, userId: int, enabledOnly: bool, extra: Option<string>)

  /** The counting query of an entry: disabled rows are left out exactly when
      the entry is failure-tracked. */
  function CountQueryFor(d: AccountType, userId: int): CountQuery {
    CountQuery(d.table, userId, d.failure, d.query)
  }

  /** Entries without a group are skipped, and so are unsafe entries unless
      the site allows unsafe exchanges. */
  predicate Considered(d: AccountType, allowUnsafe: bool) {
    d.group.Some? && !(d.unsafe && !allowUnsafe)
  }

  /** A summary entry, with PHP's reading of a missing entry as 0. */
  function Lookup(m: map<string, int>, k: string): int {
    if k in m then m[k] else 0
  }

  function TotalKey(group: string): string { "total_" + group }
  function WizardKey(wizard: string): string { "wizard_" + wizard }

  /** One pass of the inner loop body of user_limits_summary. The entry's
      own count is read back from the summary each time, as the source does. */
  function Step(acc: map<string, int>, d: AccountType, userId: int, count: CountQuery -> nat,
                allowUnsafe: bool): map<string, int>
  {
    if !Considered(d, allowUnsafe) then acc
    else
      var withKey := acc[d.key := count(CountQueryFor(d, userId))];
      var tk := TotalKey(d.group.value);
      var withTotal := withKey[tk := Lookup(withKey, tk) + withKey[d.key]];
      match d.wizard
      case None => withTotal
      case Some(w) => withTotal[WizardKey(w) := Lookup(withTotal, WizardKey(w)) + withTotal[d.key]]
  }

  /** The summary built from `acc` by the entries in order. */
  function Tally(entries: seq<AccountType>, acc: map<string, int>, userId: int,
                 count: CountQuery -> nat, allowUnsafe: bool): map<string, int>
    decreases |entries|
  {
    if entries == [] then acc
    else Tally(entries[1..], Step(acc, entries[0], userId, count, allowUnsafe), userId, count, allowUnsafe)
  }

  /** The entries of all groups, in order. */
  function Flatten(grouped: seq<seq<AccountType>>): seq<AccountType>
    decreases |grouped|
  {
    if grouped == [] then [] else grouped[0] + Flatten(grouped[1..])
  }

  /** The summary of a user (reference definition of the whole loop). */
  function Summary(grouped: seq<seq<AccountType>>, userId: int, count: CountQuery -> nat,
                   allowUnsafe: bool): map<string, int>
  {
    Tally(Flatten(grouped), map[], userId, count, allowUnsafe)
  }

  /** The sum of the counts of the considered entries of group g. */
  function GroupSum(entries: seq<AccountType>, g: string, userId: int,
                    count: CountQuery -> nat, allowUnsafe: bool): int
    decreases |entries|
  {
    if entries == [] then 0
    else
      var d := entries[0];
      (if Considered(d, allowUnsafe) && d.group == Some(g) then count(CountQueryFor(d, userId)) else 0)
        + GroupSum(entries[1..], g, userId, count, allowUnsafe)
  }

  /** The sum of the counts of the considered entries with wizard w. */
  function WizardSum(entries: seq<AccountType>, w: string, userId: int,
                     count: CountQuery -> nat, allowUnsafe: bool): int
    decreases |entries|
  {
    if entries == [] then 0
    else
      var d := entries[0];
      (if Considered(d, allowUnsafe) && d.wizard == Some(w) then count(CountQueryFor(d, userId)) else 0)
        + WizardSum(entries[1..], w, userId, count, allowUnsafe)
  }

  /** Total and wizard keys never coincide, and each determines its name. */
  lemma SummaryKeysDistinct(g: string, w: string, g': string, w': string)
    ensures TotalKey(g) != WizardKey(w)
    ensures TotalKey(g) == TotalKey(g') ==> g == g'
    ensures WizardKey(w) == WizardKey(w') ==> w == w'
  {
    assert TotalKey(g)[0] == 't' && WizardKey(w)[0] == 'w';
    if TotalKey(g) == TotalKey(g') {
      assert g == TotalKey(g)[6..] == TotalKey(g')[6..] == g';
    }
    if WizardKey(w) == WizardKey(w') {
      assert w == WizardKey(w)[7..] == WizardKey(w')[7..] == w';
    }
  }

  /** An account key that does not look like a total or wizard key. */
  predicate PlainKey(k: string) {
    !HasPrefix(k, "total_") && !HasPrefix(k, "wizard_")
  }

  /** No considered entry's key can be overwritten by a total or a wizard
      count. */
  predicate NoSummaryKeyClash(entries: seq<AccountType>) {
    forall i | 0 <= i < |entries| :: PlainKey(entries[i].key)
  }

  lemma PlainKeyIsNoSummaryKey(k: string, g: string, w: string)
    requires PlainKey(k)
    ensures k != TotalKey(g) && k != WizardKey(w)
  {
    PrefixSplit(k, "total_", g);
    PrefixSplit(k, "wizard_", w);
  }

  /** Each `total_<g>` is the sum of the counts of the entries in group g,
      provided no entry is itself keyed `total_<g>`. */
  lemma {:induction false} TallyTotal(entries: seq<AccountType>, acc: map<string, int>, g: string,
                                      userId: int, count: CountQuery -> nat, allowUnsafe: bool)
    requires NoSummaryKeyClash(entries)
    ensures Lookup(Tally(entries, acc, userId, count, allowUnsafe), TotalKey(g))
      == Lookup(acc, TotalKey(g)) + GroupSum(entries, g, userId, count, allowUnsafe)
    decreases |entries|
  {
    if entries != [] {
      var d := entries[0];
      var acc' := Step(acc, d, userId, count, allowUnsafe);
      if Considered(d, allowUnsafe) {
        SummaryKeysDistinct(g, d.wizard.GetOr(""), d.group.value, d.wizard.GetOr(""));
        PlainKeyIsNoSummaryKey(d.key, d.group.value, d.wizard.GetOr(""));
      }
      assert Lookup(acc', TotalKey(g)) == Lookup(acc, TotalKey(g))
        + (if Considered(d, allowUnsafe) && d.group == Some(g) then count(CountQueryFor(d, userId)) else 0);
      TallyTotal(entries[1..], acc', g, userId, count, allowUnsafe);
    }
  }

  /** Each `wizard_<w>` is the sum of the counts of the entries with wizard w,
      provided no entry is itself keyed `wizard_<w>`; entries without a
      wizard add nothing. */
  lemma {:induction false} TallyWizard(entries: seq<AccountType>, acc: map<string, int>, w: string,
                                       userId: int, count: CountQuery -> nat, allowUnsafe: bool)
    requires NoSummaryKeyClash(entries)
    ensures Lookup(Tally(entries, acc, userId, count, allowUnsafe), WizardKey(w))
      == Lookup(acc, WizardKey(w)) + WizardSum(entries, w, userId, count, allowUnsafe)
    decreases |entries|
  {
    if entries != [] {
      var d := entries[0];
      var acc' := Step(acc, d, userId, count, allowUnsafe);
      if Considered(d, allowUnsafe) {
        SummaryKeysDistinct(d.group.value, w, d.group.value, d.wizard.GetOr(""));
        PlainKeyIsNoSummaryKey(d.key, d.group.value, d.wizard.GetOr(""));
      }
      assert Lookup(acc', WizardKey(w)) == Lookup(acc, WizardKey(w))
        + (if Considered(d, allowUnsafe) && d.wizard == Some(w) then count(CountQueryFor(d, userId)) else 0);
      TallyWizard(entries[1..], acc', w, userId, count, allowUnsafe);
    }
  }

  /** A key that is neither a total nor a wizard key is left alone by the
      entries that do not carry it. */
  lemma {:induction false} TallyKeepsKey(entries: seq<AccountType>, acc: map<string, int>, k: string,
                                         userId: int, count: CountQuery -> nat, allowUnsafe: bool)
    requires PlainKey(k)
    requires forall i | 0 <= i < |entries| :: !(Considered(entries[i], allowUnsafe) && entries[i].key == k)
    ensures var r := Tally(entries, acc, userId, count, allowUnsafe);
      (k in r <==> k in acc) && (k in acc ==> r[k] == acc[k])
    decreases |entries|
  {
    if entries != [] {
      var d := entries[0];
      if Considered(d, allowUnsafe) {
        PlainKeyIsNoSummaryKey(k, d.group.value, d.wizard.GetOr(""));
      }
      TallyKeepsKey(entries[1..], Step(acc, d, userId, count, allowUnsafe), k, userId, count, allowUnsafe);
    }
  }

  /** The summary holds under each considered entry's key the count of that
      entry's table (the last such entry wins), and holds no key of an entry
      that was skipped. */
  lemma {:induction false} TallyKeyCount(entries: seq<AccountType>, acc: map<string, int>, i: nat,
                                         userId: int, count: CountQuery -> nat, allowUnsafe: bool)
    requires i < |entries| && Considered(entries[i], allowUnsafe)
    requires PlainKey(entries[i].key)
    requires forall j | i < j < |entries| :: entries[j].key != entries[i].key
    ensures var r := Tally(entries, acc, userId, count, allowUnsafe);
      var d := entries[i];
      d.key in r && r[d.key] == count(CountQuery(d.table, userId, d.failure, d.query))
    decreases |entries|
  {
    var d := entries[0];
    var acc' := Step(acc, d, userId, count, allowUnsafe);
    if i == 0 {
      var k := d.key;
      PlainKeyIsNoSummaryKey(k, d.group.value, d.wizard.GetOr(""));
      assert k in acc' && acc'[k] == count(CountQueryFor(d, userId));
      TallyKeepsKey(entries[1..], acc', k, userId, count, allowUnsafe);
    } else {
      TallyKeyCount(entries[1..], acc', i - 1, userId, count, allowUnsafe);
    }
  }

  /** The nested loops of user_limits_summary over account_data_grouped(). */
  method ComputeSummary(grouped: seq<seq<AccountType>>, userId: int, count: CountQuery -> nat,
                        allowUnsafe: bool) returns (accounts: map<string, int>)
    ensures accounts == Summary(grouped, userId, count, allowUnsafe)
  {
    accounts := map[];
    var i := 0;
    while i < |grouped|
      invariant 0 <= i <= |grouped|
      invariant Tally(Flatten(grouped[i..]), accounts, userId, count, allowUnsafe)
        == Summary(grouped, userId, count, allowUnsafe)
    {
      var group := grouped[i];
      assert Flatten(grouped[i..]) == group + Flatten(grouped[i + 1..]) by {
        assert grouped[i..][0] == group && grouped[i..][1..] == grouped[i + 1..];
      }
      var j := 0;
      while j < |group|
        invariant 0 <= j <= |group|
        invariant Tally(group[j..] + Flatten(grouped[i + 1..]), accounts, userId, count, allowUnsafe)
          == Summary(grouped, userId, count, allowUnsafe)
      {
        var d := group[j];
        ghost var before := accounts;
        if Considered(d, allowUnsafe) {
          accounts := accounts[d.key := count(CountQueryFor(d, userId))];
          var tk := TotalKey(d.group.value);
          if tk !in accounts {
            accounts := accounts[tk := 0];
          }
          accounts := accounts[tk := accounts[tk] + accounts[d.key]];
          if d.wizard.Some? {
            var wk := WizardKey(d.wizard.value);
            if wk !in accounts {
              accounts := accounts[wk := 0];
            }
            accounts := accounts[wk := accounts[wk] + accounts[d.key]];
          }
        }
        assert accounts == Step(before, d, userId, count, allowUnsafe);
        ghost var rest := Flatten(grouped[i + 1..]);
        assert (group[j..] + rest)[0] == d && (group[j..] + rest)[1..] == group[j + 1..] + rest;
        j := j + 1;
      }
      assert group[j..] + Flatten(grouped[i + 1..]) == Flatten(grouped[i + 1..]);
      i := i + 1;
    }
  }

  /** An entry that is skipped (no group, or unsafe while unsafe exchanges
      are not allowed) leaves no count under its key. */
  lemma SkippedKeyAbsent(entries: seq<AccountType>, k: string, userId: int,
                         count: CountQuery -> nat, allowUnsafe: bool)
    requires PlainKey(k)
    requires forall i | 0 <= i < |entries| :: !(Considered(entries[i], allowUnsafe) && entries[i].key == k)
    ensures k !in Tally(entries, map[], userId, count, allowUnsafe)
  {
    TallyKeepsKey(entries, map[], k, userId, count, allowUnsafe);
  }

  /** can_user_add, once the summary and the limit are known: the user's
      current total of the group plus `amount` must stay within the limit. */
  function CanAdd(summary: map<string, int>, group: string, amount: int, limit: int): bool {
    Lookup(summary, TotalKey(group)) + amount <= limit
  }

  /** Against a freshly computed summary, the limit check compares the sum of
      the group's per-entry counts, plus the amount, with the limit. */
  lemma CanAddCountsGroup(entries: seq<AccountType>, group: string, amount: int, limit: int,
                          userId: int, count: CountQuery -> nat, allowUnsafe: bool)
    requires NoSummaryKeyClash(entries)
    ensures CanAdd(Tally(entries, map[], userId, count, allowUnsafe), group, amount, limit)
      <==> GroupSum(entries, group, userId, count, allowUnsafe) + amount <= limit
  {
    TallyTotal(entries, map[], group, userId, count, allowUnsafe);
  }

  /** The process-wide cache of summaries, keyed by user id. */
  class LimitsCache {
    var summaries: map<int, map<string, int>>

    constructor ()
      ensures summaries == map[]
    {
      summaries := map[];
    }

    /** user_limits_summary: computed on the first call for a user, then
        served from the cache unchanged. */
    method UserLimitsSummary(userId: int, grouped: seq<seq<AccountType>>, count: CountQuery -> nat,
                             allowUnsafe: bool) returns (summary: map<string, int>)
      modifies this
      ensures userId in old(summaries) ==> summary == old(summaries)[userId] && summaries == old(summaries)
      ensures userId !in old(summaries) ==>
        summary == Summary(grouped, userId, count, allowUnsafe) && summaries == old(summaries)[userId := summary]
    {
      if userId !in summaries {
        var accounts := ComputeSummary(grouped, userId, count, allowUnsafe);
        summaries := summaries[userId := accounts];
      }
      summary := summaries[userId];
    }

    /** can_user_add: `data` is the account data of the key type, `config`
        the premium configuration; `amount` defaults to 1. A missing group
        reads as the empty string, as PHP's concatenation with null does. */
    method CanUserAdd(user: User, data: AccountType, grouped: seq<seq<AccountType>>,
                      count: CountQuery -> nat, allowUnsafe: bool, config: string -> int,
                      amount: int := 1) returns (ok: bool)
      modifies this
      ensures user.id in old(summaries) ==> summaries == old(summaries)
      ensures user.id !in old(summaries) ==>
        summaries == old(summaries)[user.id := Summary(grouped, user.id, count, allowUnsafe)]
      ensures var g := data.group.GetOr("");
        ok == CanAdd(summaries[user.id], g, amount, PremiumValue(user, g, config))
    {
      var summary := UserLimitsSummary(user.id, grouped, count, allowUnsafe);
      var g := data.group.GetOr("");
      var currentTotal := Lookup(summary, TotalKey(g));
      var limit := PremiumValue(user, g, config);
      ok := currentTotal + amount <= limit;
    }
  }

  /** Two summaries of the same user agree even when the counts have changed
      in between: the second comes from the cache. */
  method SummaryIsCached(cache: LimitsCache, userId: int, grouped: seq<seq<AccountType>>,
                         count: CountQuery -> nat, laterCount: CountQuery -> nat, allowUnsafe: bool)
      returns (first: map<string, int>, second: map<string, int>)
    modifies cache
    ensures second == first
  {
    first := cache.UserLimitsSummary(userId, grouped, count, allowUnsafe);
    second := cache.UserLimitsSummary(userId, grouped, laterCount, allowUnsafe);
  }
}
