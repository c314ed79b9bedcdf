/** The job-type resolver of GenericOpenclerkJob::run: an exact-match table
    tried first, then five prefix families whose suffix is validated against
    a registry, then "Unknown job type". Resolution only selects a handler;
    the handler scripts themselves are tags. */
module JobResolver {
  import opened Wrappers
  import opened Jobs

  /** The ticker jobs. */
  const TickerCases: seq<string> := [
      "ticker", "reported_currencies"
    ]

  /** The account jobs, first part. */
  const AccountCasesA: seq<string> := [
      "generic", "bit2c", "btce", "vircurex", "poolx", "wemineltc", "wemineftc",
      "givemecoins", "slush", "cryptostocks", "securities_cryptostocks", "btcguild",
      "havelock", "securities_havelock", "bitminter", "liteguardian", "khore",
      "cexio", "ghashio", "crypto-trade", "securities_crypto-trade", "bitstamp"
    ]

  /** The account jobs, second part. */
  const AccountCasesB: seq<string> := [
      "796", "securities_796", "kattare", "litepooleu", "coinhuntr", "eligius",
      "litecoinpool", "elitistjerks", "hashfaster_ltc", "hashfaster_ftc",
      "hashfaster_doge", "triplemining", "ozcoin_ltc", "ozcoin_btc", "scryptpools",
      "justcoin", "multipool", "ypool", "coinbase", "litecoininvest", "miningpoolco",
      "vaultofsatoshi"
    ]

  /** The account jobs, third part. */
  const AccountCasesC: seq<string> := [
      "50btc", "ecoining_ppc", "teamdoge", "dedicatedpool_doge", "nut2pools_ftc",
      "cryptsy", "cryptopools_dgc", "d2_wdc", "bit2c", "kraken", "cryptotroll_doge",
      "bitmarket_pl", "poloniex", "mupool", "anxpro", "bittrex", "nicehash",
      "westhash", "eobot", "hashtocoins", "btclevels", "bitnz"
    ]

  /** The individual securities, summary, notification, system, transaction and cleanup jobs. */
  const OtherCases: seq<string> := [
      "individual_cryptostocks", "individual_havelock", "individual_crypto-trade",
      "individual_796", "individual_litecoininvest", "sum", "securities_count",
      "notification", "securities_update", "version_check", "vote_coins",
      "transaction_creator", "transactions", "outstanding", "expiring", "expire",
      "cleanup", "disable_warning", "disable", "delete_user"
    ]

  /** The case labels of the exact-match switch, in source order. The label
      "bit2c" appears twice, at indices 3 and 54. */
  const ExactCases: seq<string> :=
    TickerCases + AccountCasesA + AccountCasesB + AccountCasesC + OtherCases

  /** The first characters of the exact case labels. */
  const ExactInitials: set<char> := {
    '5', '7', 'a', 'b', 'c', 'd', 'e', 'g', 'h', 'i', 'j', 'k', 'l', 'm', 'n', 'o', 'p',
    'r', 's', 't', 'v', 'w', 'y'
  }

  /** The script under jobs/ that an exact case requires: the label itself,
      except for "securities_crypto-trade", whose file has no hyphen. */
  function ScriptFor(caseLabel: string): string {
    if caseLabel == "securities_crypto-trade" then "securities_cryptotrade" else caseLabel
  }

  /** What `run` ends up requiring. */
  datatype Handler =
    | Script(file: string)                   // jobs/<file>.php
    | AddressDiscovered(currency: string)    // jobs/addresses/discovered.php
    | AddressInclude(currency: string)       // jobs/addresses/<currency>.php
    | BlockcountDiscovered(currency: string) // jobs/blockcount/discovered.php
    | DifficultyDiscovered(currency: string) // jobs/difficulty/discovered.php
    | MarketsDiscovered(exchange: string)    // jobs/markets/discovered.php
    | TickerDiscovered(exchange: string)     // jobs/ticker/discovered.php

  /** The registries the prefix families consult: get_address_currencies(),
      the discovered balance, block and difficulty currencies, the discovered
      exchange keys, and `addressIncludes`, the currencies c for which
      jobs/addresses/<c>.php exists. */
  datatype Registries = Registries(
    addressCurrencies: set<string>,
    balanceCurrencies: set<string>,
    addressIncludes: set<string>,
    blockCurrencies: set<string>,
    difficultyCurrencies: set<string>,
    exchangeKeys: set<string>)

  const AddressPrefix: string := "address_"
  const BlockcountPrefix: string := "blockcount_"
  const DifficultyPrefix: string := "difficulty_"
  const MarketsPrefix: string := "markets_"
  const TickerPrefix: string := "ticker_"

  predicate HasFamilyPrefix(t: string) {
    || HasPrefix(t, AddressPrefix)
    || HasPrefix(t, BlockcountPrefix)
    || HasPrefix(t, DifficultyPrefix)
    || HasPrefix(t, MarketsPrefix)
    || HasPrefix(t, TickerPrefix)
  }

  /** The `address_` family: a valid address currency that is also a balance
      currency goes to the discovered handler, any other to its own include,
      which must exist. */
  function ResolveAddress(currency: string, reg: Registries): Result<Handler, JobError> {
    if currency !in reg.addressCurrencies then Err(InvalidAddressCurrency(currency))
    else if currency in reg.balanceCurrencies then Ok(AddressDiscovered(currency))
    else if currency !in reg.addressIncludes then Err(MissingAddressInclude(currency))
    else Ok(AddressInclude(currency))
  }

  /** GenericOpenclerkJob::run. `allowUnsafe` is the site option that guards
      a switch of unsafe job types, which has no cases. */
  function Resolve(t: string, reg: Registries, allowUnsafe: bool): Result<Handler, JobError> {
    if t in ExactCases then Ok(Script(ScriptFor(t)))
    else if HasPrefix(t, AddressPrefix) then
      ResolveAddress(t[|AddressPrefix|..], reg)
    else if HasPrefix(t, BlockcountPrefix) then
      var c := t[|BlockcountPrefix|..];
      if c in reg.blockCurrencies then Ok(BlockcountDiscovered(c)) else Err(InvalidBlockCurrency(c))
    else if HasPrefix(t, DifficultyPrefix) then
      var c := t[|DifficultyPrefix|..];
      if c in reg.difficultyCurrencies then Ok(DifficultyDiscovered(c)) else Err(InvalidDifficultyCurrency(c))
    else if HasPrefix(t, MarketsPrefix) then
      var e := t[|MarketsPrefix|..];
      if e in reg.exchangeKeys then Ok(MarketsDiscovered(e)) else Err(InvalidExchange(e))
    else if HasPrefix(t, TickerPrefix) then
      var e := t[|TickerPrefix|..];
      if e in reg.exchangeKeys then Ok(TickerDiscovered(e)) else Err(InvalidExchange(e))
    else
      Err(UnknownJobType(t))
  }

  /** The job types that ought to reach handler h, stated per handler rather
      than in resolution order. */
  predicate Routes(t: string, reg: Registries, h: Handler) {
    match h
    case Script(f) => t in ExactCases && ScriptFor(t) == f
    case AddressDiscovered(c) =>
      t == AddressPrefix + c && c in reg.addressCurrencies && c in reg.balanceCurrencies
    case AddressInclude(c) =>
      && t == AddressPrefix + c && c in reg.addressCurrencies
      && c !in reg.balanceCurrencies && c in reg.addressIncludes
    case BlockcountDiscovered(c) => t == BlockcountPrefix + c && c in reg.blockCurrencies
    case DifficultyDiscovered(c) => t == DifficultyPrefix + c && c in reg.difficultyCurrencies
    case MarketsDiscovered(e) => t == MarketsPrefix + e && e in reg.exchangeKeys
    case TickerDiscovered(e) => t == TickerPrefix + e && e in reg.exchangeKeys
  }

  /** The characters of t that a prefix test looks at. */
  lemma PrefixChars(t: string, p: string)
    requires |p| > 1
    ensures HasPrefix(t, p) ==> |t| >= |p| && t[0] == p[0] && t[1] == p[1] && t[|p| - 1] == p[|p| - 1]
  {
    if HasPrefix(t, p) {
      assert t[..|p|][0] == p[0];
      assert t[..|p|][1] == p[1];
      assert t[..|p|][|p| - 1] == p[|p| - 1];
    }
  }

  lemma FamilyPrefixChars(t: string)
    ensures HasPrefix(t, AddressPrefix) ==> |t| >= 8 && t[0] == 'a' && t[1] == 'd' && t[7] == '_'
    ensures HasPrefix(t, BlockcountPrefix) ==> |t| >= 11 && t[0] == 'b' && t[1] == 'l' && t[10] == '_'
    ensures HasPrefix(t, DifficultyPrefix) ==> |t| >= 11 && t[0] == 'd' && t[1] == 'i' && t[10] == '_'
    ensures HasPrefix(t, MarketsPrefix) ==> |t| >= 8 && t[0] == 'm' && t[1] == 'a' && t[7] == '_'
    ensures HasPrefix(t, TickerPrefix) ==> |t| >= 7 && t[0] == 't' && t[1] == 'i' && t[6] == '_'
  {
    PrefixChars(t, AddressPrefix);
    PrefixChars(t, BlockcountPrefix);
    PrefixChars(t, DifficultyPrefix);
    PrefixChars(t, MarketsPrefix);
    PrefixChars(t, TickerPrefix);
  }

  /** No exact case label starts with a family prefix, so the prefix rules
      never see a type of the exact table, and the exact table never
      captures a type of a prefix family. */
  lemma NoExactCaseHasFamilyPrefix(t: string)
    requires t in ExactCases
    ensures !HasFamilyPrefix(t)
    ensures t != [] && t[0] in ExactInitials
  {
    if t in TickerCases {
      NoFamilyPrefixInTickerCases(t);
    } else if t in AccountCasesA {
      NoFamilyPrefixInAccountCasesA(t);
    } else if t in AccountCasesB {
      NoFamilyPrefixInAccountCasesB(t);
    } else if t in AccountCasesC {
      NoFamilyPrefixInAccountCasesC(t);
    } else {
      NoFamilyPrefixInOtherCases(t);
    }
  }

  // One section of the table per lemma keeps each case split small.

  lemma NoFamilyPrefixInTickerCases(t: string)
    requires t in TickerCases
    ensures !HasFamilyPrefix(t)
    ensures t != [] && t[0] in ExactInitials
  {
    FamilyPrefixChars(t);
  }

  lemma NoFamilyPrefixInAccountCasesA(t: string)
    requires t in AccountCasesA
    ensures !HasFamilyPrefix(t)
    ensures t != [] && t[0] in ExactInitials
  {
    FamilyPrefixChars(t);
  }

  lemma NoFamilyPrefixInAccountCasesB(t: string)
    requires t in AccountCasesB
    ensures !HasFamilyPrefix(t)
    ensures t != [] && t[0] in ExactInitials
  {
    FamilyPrefixChars(t);
  }

  lemma NoFamilyPrefixInAccountCasesC(t: string)
    requires t in AccountCasesC
    ensures !HasFamilyPrefix(t)
    ensures t != [] && t[0] in ExactInitials
  {
    FamilyPrefixChars(t);
  }

  lemma NoFamilyPrefixInOtherCases(t: string)
    requires t in OtherCases
    ensures !HasFamilyPrefix(t)
    ensures t != [] && t[0] in ExactInitials
  {
    FamilyPrefixChars(t);
  }

  /** Every resolved handler is one the job type ought to reach, and a job
      type resolves to every handler it ought to reach. */
  lemma ResolveMatchesRoutes(t: string, reg: Registries, allowUnsafe: bool, h: Handler)
    ensures Resolve(t, reg, allowUnsafe) == Ok(h) <==> Routes(t, reg, h)
  {
    FamilyPrefixChars(t);
    if t in ExactCases {
      NoExactCaseHasFamilyPrefix(t);
    }
    match h
    case Script(_) =>
    case AddressDiscovered(c) => PrefixSplit(t, AddressPrefix, c);
    case AddressInclude(c) => PrefixSplit(t, AddressPrefix, c);
    case BlockcountDiscovered(c) => PrefixSplit(t, BlockcountPrefix, c);
    case DifficultyDiscovered(c) => PrefixSplit(t, DifficultyPrefix, c);
    case MarketsDiscovered(e) => PrefixSplit(t, MarketsPrefix, e);
    case TickerDiscovered(e) => PrefixSplit(t, TickerPrefix, e);
  }

  /** The first "bit2c" case wins, and the second one requires the same
      script, so the duplicate is harmless. */
  lemma DuplicateBit2c(reg: Registries, allowUnsafe: bool)
    ensures ExactCases[3] == "bit2c" && ExactCases[54] == "bit2c"
    ensures forall i | 0 <= i < 3 :: ExactCases[i] != "bit2c"
    ensures ScriptFor(ExactCases[3]) == ScriptFor(ExactCases[54])
    ensures Resolve("bit2c", reg, allowUnsafe) == Ok(Script("bit2c"))
  {
  }

  lemma UnknownWidget(reg: Registries, allowUnsafe: bool)
    ensures Resolve("unknown_widget", reg, allowUnsafe) == Err(UnknownJobType("unknown_widget"))
  {
    NotAnExactCase("unknown_widget");
    FamilyPrefixChars("unknown_widget");
  }

  lemma NotAnExactCase(t: string)
    requires t == [] || t[0] !in ExactInitials
    ensures t !in ExactCases
  {
    if t in ExactCases {
      NoExactCaseHasFamilyPrefix(t);
    }
  }

  /** At most one prefix family claims a job type, so the order in which
      they are tried cannot change the outcome. */
  lemma FamiliesExclusive(t: string)
    ensures HasPrefix(t, AddressPrefix) ==>
      (!HasPrefix(t, BlockcountPrefix) && !HasPrefix(t, DifficultyPrefix)
       && !HasPrefix(t, MarketsPrefix) && !HasPrefix(t, TickerPrefix))
    ensures HasPrefix(t, BlockcountPrefix) ==>
      (!HasPrefix(t, DifficultyPrefix) && !HasPrefix(t, MarketsPrefix) && !HasPrefix(t, TickerPrefix))
    ensures HasPrefix(t, DifficultyPrefix) ==> !HasPrefix(t, MarketsPrefix) && !HasPrefix(t, TickerPrefix)
    ensures HasPrefix(t, MarketsPrefix) ==> !HasPrefix(t, TickerPrefix)
  {
    FamilyPrefixChars(t);
  }

  /** "address_" + c: an unknown address currency is an error; a balance
      currency takes the discovered handler; any other needs its own
      include, and a missing include is an error. */
  lemma ResolveAddressJob(c: string, reg: Registries, allowUnsafe: bool)
    ensures var r := Resolve(AddressPrefix + c, reg, allowUnsafe);
      && (c !in reg.addressCurrencies ==> r == Err(InvalidAddressCurrency(c)))
      && (c in reg.addressCurrencies && c in reg.balanceCurrencies ==> r == Ok(AddressDiscovered(c)))
      && (c in reg.addressCurrencies && c !in reg.balanceCurrencies && c !in reg.addressIncludes
          ==> r == Err(MissingAddressInclude(c)))
      && (c in reg.addressCurrencies && c !in reg.balanceCurrencies && c in reg.addressIncludes
          ==> r == Ok(AddressInclude(c)))
  {
    FamilyJob(AddressPrefix, c);
  }

  /** "blockcount_" + c takes the discovered handler iff c is a block
      currency. */
  lemma ResolveBlockcountJob(c: string, reg: Registries, allowUnsafe: bool)
    ensures Resolve(BlockcountPrefix + c, reg, allowUnsafe)
      == if c in reg.blockCurrencies then Ok(BlockcountDiscovered(c)) else Err(InvalidBlockCurrency(c))
  {
    FamilyJob(BlockcountPrefix, c);
  }

  /** "difficulty_" + c takes the discovered handler iff c is a difficulty
      currency. */
  lemma ResolveDifficultyJob(c: string, reg: Registries, allowUnsafe: bool)
    ensures Resolve(DifficultyPrefix + c, reg, allowUnsafe)
      == if c in reg.difficultyCurrencies then Ok(DifficultyDiscovered(c)) else Err(InvalidDifficultyCurrency(c))
  {
    FamilyJob(DifficultyPrefix, c);
  }

  /** "markets_" + e takes the discovered handler iff e is an exchange key. */
  lemma ResolveMarketsJob(e: string, reg: Registries, allowUnsafe: bool)
    ensures Resolve(MarketsPrefix + e, reg, allowUnsafe)
      == if e in reg.exchangeKeys then Ok(MarketsDiscovered(e)) else Err(InvalidExchange(e))
  {
    FamilyJob(MarketsPrefix, e);
  }

  /** "ticker_" + e takes the discovered handler iff e is an exchange key. */
  lemma ResolveTickerJob(e: string, reg: Registries, allowUnsafe: bool)
    ensures Resolve(TickerPrefix + e, reg, allowUnsafe)
      == if e in reg.exchangeKeys then Ok(TickerDiscovered(e)) else Err(InvalidExchange(e))
  {
    FamilyJob(TickerPrefix, e);
  }

  /** A family job type is no exact case, carries exactly its own prefix,
      and its suffix is what follows the prefix. */
  lemma FamilyJob(p: string, suffix: string)
    requires p in [AddressPrefix, BlockcountPrefix, DifficultyPrefix, MarketsPrefix, TickerPrefix]
    ensures var t := p + suffix;
      && t !in ExactCases && HasPrefix(t, p) && t[|p|..] == suffix
      && (HasPrefix(t, AddressPrefix) <==> p == AddressPrefix)
      && (HasPrefix(t, BlockcountPrefix) <==> p == BlockcountPrefix)
      && (HasPrefix(t, DifficultyPrefix) <==> p == DifficultyPrefix)
      && (HasPrefix(t, MarketsPrefix) <==> p == MarketsPrefix)
      && (HasPrefix(t, TickerPrefix) <==> p == TickerPrefix)
  {
    var t := p + suffix;
    PrefixSplit(t, p, suffix);
    FamilyPrefixChars(t);
    if t in ExactCases {
      NoExactCaseHasFamilyPrefix(t);
    }
  }

  /** "Unknown job type" is raised exactly for the types that match no exact
      case and no prefix family. */
  lemma ResolveUnknown(t: string, reg: Registries, allowUnsafe: bool)
    ensures Resolve(t, reg, allowUnsafe) == Err(UnknownJobType(t))
      <==> t !in ExactCases && !HasFamilyPrefix(t)
    ensures Resolve(t, reg, allowUnsafe).Err? && Resolve(t, reg, allowUnsafe).error.UnknownJobType?
      ==> Resolve(t, reg, allowUnsafe).error.jobType == t
  {
  }

  /** The guarded switch of unsafe job types is empty, so `Resolve` never
      reads the site option: this lemma records that the option changes
      nothing, and holds because the parameter is unused. */
  lemma AllowUnsafeAddsNoRoutes(t: string, reg: Registries)
    ensures Resolve(t, reg, true) == Resolve(t, reg, false)
  {
  }

  /** "ticker_btce" with btce missing from the exchange keys. */
  lemma TickerOfUnknownExchange(reg: Registries, allowUnsafe: bool)
    requires "btce" !in reg.exchangeKeys
    ensures Resolve("ticker_btce", reg, allowUnsafe) == Err(InvalidExchange("btce"))
  {
    assert "ticker_btce" == TickerPrefix + "btce";
    ResolveTickerJob("btce", reg, allowUnsafe);
  }
}
