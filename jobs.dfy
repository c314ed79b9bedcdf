/** The queued unit of work and the job exceptions the core raises. */
module Jobs {

  /** A row of the job queue. `arg0` is the free-form string argument that
      some job types carry; `argId` names the target account or record and
      `userId` its owner. */
  datatype Job = Job(id: int, jobType: string, argId: int, arg0: string, userId: int)

  /** Every `JobException` raised by the core, one variant per message. */
  datatype JobError =
    | InvalidAddressCurrency(currency: string)     // "Currency c is not a valid address currency"
    | MissingAddressInclude(currency: string)      // "Could not find any addresses/c.php include"
    | InvalidBlockCurrency(currency: string)       // "Currency c is not a valid block currency"
    | InvalidDifficultyCurrency(currency: string)  // "Currency c is not a valid difficulty currency"
    | InvalidExchange(exchange: string)            // "Exchange e is not a valid exchange"
    | UnknownJobType(jobType: string)              // "Unknown job type 't'"
    | ExchangeNotFound(argId: int)                 // "Cannot find an exchange id"
    | UnknownReportedExchange(name: string)        // "Unknown exchange to report currencies n"

  /** `substr($s, 0, strlen($p)) === $p`: PHP's substr returns the whole of a
      string shorter than the requested length, which then differs from p. */
  predicate HasPrefix(s: string, p: string) {
    |p| <= |s| && s[..|p|] == p
  }

  /** s starts with p exactly when s is p followed by what substr($s,
      strlen($p)) returns. */
  lemma PrefixSplit(s: string, p: string, rest: string)
    ensures s == p + rest <==> HasPrefix(s, p) && s[|p|..] == rest
  {
    if s == p + rest {
      assert s[..|p|] == p;
      assert s[|p|..] == rest;
    }
    if HasPrefix(s, p) && s[|p|..] == rest {
      assert s == s[..|p|] + s[|p|..];
    }
  }
}
