/** Running a unit of work inside a database transaction, retrying it when the store reports a
    serialization failure or deadlock (src/lib/transaction.ts). The store is an oracle: `tx` gives
    the outcome of the transaction started for each attempt number. */
module Transaction {
  import opened Results

  datatype IsolationLevel = ReadUncommitted | ReadCommitted | RepeatableRead | Serializable

  /** `TransactionOptions`: every field may be left out. */
  datatype Options = Options(maxRetries: Option<int>, timeout: Option<int>, isolationLevel: Option<IsolationLevel>)

  /** The options once merged with the defaults. */
  datatype Settings = Settings(maxRetries: int, timeout: int, isolationLevel: IsolationLevel)

  /** What `db.$transaction` receives besides the callback. */
  datatype TxConfig = TxConfig(timeout: int, isolationLevel: IsolationLevel)

  /** An error thrown by a transaction: a Prisma known-request error carrying a code, or any other error. */
  datatype TxError = KnownRequestError(code: string, message: string) | PlainError(message: string)

  /** The outcome of one transaction attempt. */
  datatype Attempt<T> = Returned(value: T) | Threw(error: TxError)

  /** What a call of `withTransaction` amounts to: its outcome and how many transactions it started. */
  datatype Run<T> = Run(outcome: Result<T, TxError>, attempts: nat)

  const DefaultSettings: Settings := Settings(3, 5000, ReadCommitted)
  const RetryableCodes: seq<string> := ["P2034"]
  const BackoffBaseMs: nat := 100
  const NoAttemptError: TxError := PlainError("Transaction failed")

  /** `{ ...DEFAULT_OPTIONS, ...options }`: a supplied option wins, a missing one takes its default. */
  function Merge(o: Options): (s: Settings)
    ensures o.maxRetries.Some? ==> s.maxRetries == o.maxRetries.value
    ensures o.maxRetries.None? ==> s.maxRetries == DefaultSettings.maxRetries
    ensures o.timeout.Some? ==> s.timeout == o.timeout.value
    ensures o.timeout.None? ==> s.timeout == DefaultSettings.timeout
    ensures o.isolationLevel.Some? ==> s.isolationLevel == o.isolationLevel.value
    ensures o.isolationLevel.None? ==> s.isolationLevel == DefaultSettings.isolationLevel
  {
    Settings(
      if o.maxRetries.Some? then o.maxRetries.value else DefaultSettings.maxRetries,
      if o.timeout.Some? then o.timeout.value else DefaultSettings.timeout,
      if o.isolationLevel.Some? then o.isolationLevel.value else DefaultSettings.isolationLevel)
  }

  lemma MergeEmpty()
    ensures Merge(Options(None, None, None)) == Settings(3, 5000, ReadCommitted)
  {
  }

  /** Only a known-request error with code P2034 (serialization failure or deadlock) is retried. */
  function IsRetryable(e: TxError): (r: bool)
    ensures r <==> e.KnownRequestError? && e.code == "P2034"
  {
    e.KnownRequestError? && e.code in RetryableCodes
  }

  function Pow2(k: nat): (r: nat)
    ensures r >= 1
  {
    if k == 0 then 1 else 2 * Pow2(k - 1)
  }

  /** The pause after failed attempt `attempt`: 2^attempt * 100 ms. */
  function Backoff(attempt: nat): nat {
    Pow2(attempt) * BackoffBaseMs
  }

  /** The pauses taken before attempts 2 .. k+1. */
  function Delays(k: nat): (d: seq<nat>)
    ensures |d| == k && forall i :: 0 <= i < k ==> d[i] == Backoff(i + 1)
  {
    seq(k, i requires 0 <= i < k => Backoff(i + 1))
  }

  lemma {:induction false} BackoffDoubles(attempt: nat)
    ensures Backoff(attempt + 1) == 2 * Backoff(attempt)
    ensures Delays(2) == [200, 400]
  {
    assert Pow2(2) == 4;
  }

  /** The retry loop from attempt number `attempt` on. */
  function RunFrom<T>(tx: (TxConfig, nat) -> Attempt<T>, cfg: TxConfig, maxRetries: int, attempt: nat): (r: Run<T>)
    requires 1 <= attempt <= maxRetries
    ensures attempt <= r.attempts <= maxRetries
    ensures r.outcome.Err? && r.attempts < maxRetries ==> !IsRetryable(r.outcome.error)
    decreases maxRetries - attempt
  {
    match tx(cfg, attempt)
    case Returned(v) => Run(Ok(v), attempt)
    case Threw(e) =>
      if !IsRetryable(e) || attempt == maxRetries then Run(Err(e), attempt)
      else RunFrom(tx, cfg, maxRetries, attempt + 1)
  }

  /** What `withTransaction(callback, options)` does, given the outcome of every attempt. */
  function Expected<T>(tx: (TxConfig, nat) -> Attempt<T>, options: Options): (r: Run<T>)
    ensures Merge(options).maxRetries < 1 ==> r == Run(Err(NoAttemptError), 0)
    ensures Merge(options).maxRetries >= 1 ==> 1 <= r.attempts <= Merge(options).maxRetries
  {
    var s := Merge(options);
    if s.maxRetries < 1 then Run(Err(NoAttemptError), 0)
    else RunFrom(tx, TxConfig(s.timeout, s.isolationLevel), s.maxRetries, 1)
  }

  /** Every attempt before the last failed with a retryable error; the last one either returned
      the value or threw the error that comes out, and a retryable error only comes out when the
      budget is spent. */
  lemma {:induction false} RunFromFacts<T>(tx: (TxConfig, nat) -> Attempt<T>, cfg: TxConfig, maxRetries: int, attempt: nat)
    requires 1 <= attempt <= maxRetries
    ensures var run := RunFrom(tx, cfg, maxRetries, attempt);
      && attempt <= run.attempts <= maxRetries
      && (forall j :: attempt <= j < run.attempts ==> tx(cfg, j).Threw? && IsRetryable(tx(cfg, j).error))
      && (run.outcome.Ok? ==> tx(cfg, run.attempts) == Returned(run.outcome.value))
      && (run.outcome.Err? ==> tx(cfg, run.attempts) == Threw(run.outcome.error))
      && (run.outcome.Err? && IsRetryable(run.outcome.error) ==> run.attempts == maxRetries)
    decreases maxRetries - attempt
  {
    match tx(cfg, attempt)
    case Returned(v) =>
    case Threw(e) =>
      if IsRetryable(e) && attempt < maxRetries {
        RunFromFacts(tx, cfg, maxRetries, attempt + 1);
      }
  }

  /** The facts above for a whole call: at most `maxRetries` attempts, none when it is not positive. */
  lemma Characterisation<T>(tx: (TxConfig, nat) -> Attempt<T>, options: Options)
    ensures var s := Merge(options); var cfg := TxConfig(s.timeout, s.isolationLevel);
      var run := Expected(tx, options);
      && (s.maxRetries < 1 ==> run == Run(Err(NoAttemptError), 0))
      && (s.maxRetries >= 1 ==>
          && 1 <= run.attempts <= s.maxRetries
          && (forall j :: 1 <= j < run.attempts ==> tx(cfg, j).Threw? && IsRetryable(tx(cfg, j).error))
          && (run.outcome.Ok? ==> tx(cfg, run.attempts) == Returned(run.outcome.value))
          && (run.outcome.Err? ==> tx(cfg, run.attempts) == Threw(run.outcome.error))
          && (run.outcome.Err? && IsRetryable(run.outcome.error) ==> run.attempts == s.maxRetries))
  {
    var s := Merge(options);
    if s.maxRetries >= 1 {
      RunFromFacts(tx, TxConfig(s.timeout, s.isolationLevel), s.maxRetries, 1);
    }
  }

  /** If attempt k succeeds after k-1 retryable failures, its value comes out after exactly k attempts. */
  lemma {:induction false} SuccessStops<T>(tx: (TxConfig, nat) -> Attempt<T>, cfg: TxConfig, maxRetries: int, attempt: nat, k: nat)
    requires 1 <= attempt <= k <= maxRetries
    requires forall j :: attempt <= j < k ==> tx(cfg, j).Threw? && IsRetryable(tx(cfg, j).error)
    requires tx(cfg, k).Returned?
    ensures RunFrom(tx, cfg, maxRetries, attempt) == Run(Ok(tx(cfg, k).value), k)
    decreases k - attempt
  {
    if attempt < k {
      SuccessStops(tx, cfg, maxRetries, attempt + 1, k);
    }
  }

  /** When every attempt fails with P2034, exactly `maxRetries` attempts are made and the last error comes out. */
  lemma {:induction false} ExhaustsRetries<T>(tx: (TxConfig, nat) -> Attempt<T>, cfg: TxConfig, maxRetries: int, attempt: nat)
    requires 1 <= attempt <= maxRetries
    requires forall j :: attempt <= j <= maxRetries ==> tx(cfg, j).Threw? && IsRetryable(tx(cfg, j).error)
    ensures RunFrom(tx, cfg, maxRetries, attempt) == Run(Err(tx(cfg, maxRetries).error), maxRetries)
    decreases maxRetries - attempt
  {
    if attempt < maxRetries {
      ExhaustsRetries(tx, cfg, maxRetries, attempt + 1);
    }
  }

  /** A non-P2034 error on the first attempt is thrown after exactly one attempt. */
  lemma NonRetryableThrownAtOnce<T>(tx: (TxConfig, nat) -> Attempt<T>, options: Options)
    requires Merge(options).maxRetries >= 1
    requires var s := Merge(options); var a := tx(TxConfig(s.timeout, s.isolationLevel), 1);
      a.Threw? && !IsRetryable(a.error)
    ensures var s := Merge(options);
      Expected(tx, options) == Run(Err(tx(TxConfig(s.timeout, s.isolationLevel), 1).error), 1)
  {
  }

  /** One P2034 failure and then success: the value comes out after exactly two attempts. */
  lemma RetryThenSucceed<T>(tx: (TxConfig, nat) -> Attempt<T>, options: Options, v: T)
    requires Merge(options).maxRetries >= 2
    requires var s := Merge(options); var cfg := TxConfig(s.timeout, s.isolationLevel);
      tx(cfg, 1).Threw? && IsRetryable(tx(cfg, 1).error) && tx(cfg, 2) == Returned(v)
    ensures Expected(tx, options) == Run(Ok(v), 2)
  {
    var s := Merge(options);
    SuccessStops(tx, TxConfig(s.timeout, s.isolationLevel), s.maxRetries, 1, 2);
  }

  /** `withTransaction`: the loop over attempts 1 .. maxRetries. It reports how many transactions
      it started; the pauses it sleeps are recorded in `delays`. */
  method WithTransaction<T>(tx: (TxConfig, nat) -> Attempt<T>, options: Options)
    returns (r: Result<T, TxError>, attempts: nat, ghost delays: seq<nat>)
    ensures Run(r, attempts) == Expected(tx, options)
    ensures attempts >= 1 ==> delays == Delays(attempts - 1)
    ensures attempts == 0 ==> delays == []
  {
    var opts := Merge(options);
    var cfg := TxConfig(opts.timeout, opts.isolationLevel);
    var lastError: Option<TxError> := None;
    delays := [];
    var attempt: nat := 1;
    while attempt <= opts.maxRetries
      invariant 1 <= attempt
      invariant opts.maxRetries >= 1 ==> attempt <= opts.maxRetries
      invariant opts.maxRetries < 1 ==> attempt == 1
      invariant opts.maxRetries >= 1 ==> Expected(tx, options) == RunFrom(tx, cfg, opts.maxRetries, attempt)
      invariant lastError.None? <==> attempt == 1
      invariant delays == Delays(attempt - 1)
      decreases opts.maxRetries - attempt
    {
      match tx(cfg, attempt)
      case Returned(v) =>
        return Ok(v), attempt, delays;
      case Threw(e) =>
        lastError := Some(e);
        if !IsRetryable(e) || attempt == opts.maxRetries {
          return Err(e), attempt, delays;
        }
        delays := delays + [Backoff(attempt)];
        attempt := attempt + 1;
    }
    r := Err(match lastError case Some(e) => e case None => NoAttemptError);
    attempts := 0;
  }
}
