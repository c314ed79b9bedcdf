/** The "reported_currencies" job: look up the enabled exchange the job
    names, record its name in the job, and hand over to that exchange's own
    script. */
module ReportedCurrencies {
  import opened Wrappers
  import opened Jobs

  /** A row of the `exchanges` table. */
  datatype Exchange = Exchange(name: string, isDisabled: bool)

  /** The `exchanges` table, by id. */
  type ExchangeTable = map<int, Exchange>

  /** The exchanges the switch knows, in the order of its cases. */
  const ReportedExchanges: seq<string> := [
    "vaultofsatoshi", "btce", "cexio", "coinbase", "coins-e", "crypto-trade",
    "cryptsy", "justcoin", "themoneyconverter", "vircurex", "kraken",
    "bitmarket_pl", "poloniex", "anxpro", "bittrex", "bter"
  ]

  /** The directory holding the per-exchange scripts. */
  const ScriptDir: string := "reported_currencies/"

  /** What the job goes on to run: the job as the script sees it, and the
      script `jobs/reported_currencies/<name>.php`. */
  datatype Dispatch = Dispatch(job: Job, script: string)

  /** `SELECT * FROM exchanges WHERE id=? AND is_disabled=0`. */
  function FindEnabled(exchanges: ExchangeTable, id: int): Option<Exchange> {
    if id in exchanges && !exchanges[id].isDisabled then Some(exchanges[id]) else None
  }

  /** The whole job: a missing or disabled exchange is an error before
      anything else; otherwise `arg0` takes the exchange's name and the name
      picks the script, an unlisted name being an error. */
  function Route(job: Job, exchanges: ExchangeTable): Result<Dispatch, JobError> {
    match FindEnabled(exchanges, job.argId)
    case None => Err(ExchangeNotFound(job.argId))
    case Some(e) =>
      var named := job.(arg0 := e.name);
      if e.name in ReportedExchanges then Ok(Dispatch(named, ScriptDir + e.name))
      else Err(UnknownReportedExchange(e.name))
  }

  // ---------------------------------------------------------------------
  // Properties

  /** The job fails with "cannot find an exchange" exactly when no enabled
      row has its id, and with "unknown exchange" exactly when the row is
      there but its name is not one of the sixteen. */
  lemma RouteErrors(job: Job, exchanges: ExchangeTable)
    ensures Route(job, exchanges) == Err(ExchangeNotFound(job.argId))
      <==> job.argId !in exchanges || exchanges[job.argId].isDisabled
    ensures (exists n :: Route(job, exchanges) == Err(UnknownReportedExchange(n)))
      <==> job.argId in exchanges && !exchanges[job.argId].isDisabled
           && exchanges[job.argId].name !in ReportedExchanges
  {
    if job.argId in exchanges && !exchanges[job.argId].isDisabled
       && exchanges[job.argId].name !in ReportedExchanges {
      assert Route(job, exchanges) == Err(UnknownReportedExchange(exchanges[job.argId].name));
    }
  }

  /** A dispatch happens exactly for an enabled exchange with a listed name;
      the script is that exchange's own, and of the job only `arg0` changes,
      to the exchange's name. */
  lemma RouteDispatches(job: Job, exchanges: ExchangeTable, d: Dispatch)
    ensures Route(job, exchanges) == Ok(d)
      <==> && job.argId in exchanges && !exchanges[job.argId].isDisabled
           && exchanges[job.argId].name in ReportedExchanges
           && d.job == job.(arg0 := exchanges[job.argId].name)
           && d.script == ScriptDir + exchanges[job.argId].name
  {
  }

  /** The sixteen case labels are distinct, so no case shadows another. */
  lemma ReportedExchangesDistinct()
    ensures |ReportedExchanges| == 16
    ensures forall i, j :: 0 <= i < j < |ReportedExchanges| ==> ReportedExchanges[i] != ReportedExchanges[j]
  {
  }

  /** Different exchanges dispatch to different scripts, so every listed
      name has a handler of its own. */
  lemma DispatchInjective(job1: Job, job2: Job, exchanges: ExchangeTable)
    requires Route(job1, exchanges).Ok? && Route(job2, exchanges).Ok?
    requires Route(job1, exchanges).value.script == Route(job2, exchanges).value.script
    ensures exchanges[job1.argId].name == exchanges[job2.argId].name
  {
    var n1, n2 := exchanges[job1.argId].name, exchanges[job2.argId].name;
    PrefixSplit(ScriptDir + n1, ScriptDir, n1);
    PrefixSplit(ScriptDir + n2, ScriptDir, n2);
  }
}
