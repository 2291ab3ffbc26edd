/** One delivery: how a provider answer is classified, the in-memory retry loop around it, how
    long the loop can take, and the reaper's window that is meant to cover it. */
module Delivery {
  import opened Domain

  // ----- The provider client -----

  /** What comes of one HTTP call. A request that cannot be built is an error of another type
      than the client's own. */
  datatype HttpReply = NotBuilt | NoResponse | Status(code: int, messageId: Option<string>)

  datatype Answer = Accepted(messageId: string) | Retryable | Permanent

  /** 202 and 200 accept, parsable body or not; transport errors, 429 and 5xx may be retried; any
      other status is final. An error of another type is retried: deliver stops early only for the
      client's own non-retryable error. */
  function Classify(r: HttpReply): Answer {
    match r
    case NotBuilt => Retryable
    case NoResponse => Retryable
    case Status(code, messageId) =>
      if code == 202 || code == 200 then Accepted(if messageId.Some? then messageId.value else "")
      else if code == 429 || code >= 500 then Retryable
      else Permanent
  }

  // ----- The retry loop -----

  datatype Reason = Rejected | Exhausted | Interrupted

  /** Untried is the loop that never ran: deliver then returns no response and no error. */
  datatype Delivered = Success(messageId: string) | Untried | Failure(reason: Reason)

  /** What the world does to one delivery: the answer to the k-th Send and the time it takes, and
      whether the pause after it is cut short by a shutdown and how long it lasts. */
  datatype World = World(reply: nat -> HttpReply, took: nat -> Time, interrupted: nat -> bool, paused: nat -> Time)

  /** The k-th Send, counted from zero, is followed by another. */
  ghost predicate GoesOn(w: World, maxAttempts: int, k: nat) {
    Classify(w.reply(k)).Retryable? && k + 1 < maxAttempts && !w.interrupted(k)
  }

  /** The loop makes n Sends: each but the last is followed by another, and the last is not. */
  ghost predicate Makes(w: World, maxAttempts: int, n: nat) {
    && (n == 0 <==> maxAttempts <= 0)
    && (n > 0 ==> n <= maxAttempts && !GoesOn(w, maxAttempts, n - 1))
    && (forall k: nat | k + 1 < n :: GoesOn(w, maxAttempts, k))
  }

  /** How many Sends the loop makes in this world. */
  ghost function SendsOf(w: World, maxAttempts: int): (n: nat)
    ensures Makes(w, maxAttempts, n)
  {
    if maxAttempts <= 0 then 0 else SendsFrom(w, maxAttempts, 0)
  }

  ghost function SendsFrom(w: World, maxAttempts: int, k: nat): (n: nat)
    requires k < maxAttempts && forall i: nat | i < k :: GoesOn(w, maxAttempts, i)
    ensures Makes(w, maxAttempts, n)
    decreases maxAttempts - k
  {
    if GoesOn(w, maxAttempts, k) then SendsFrom(w, maxAttempts, k + 1) else k + 1
  }

  /** The world decides. */
  lemma MakesOnce(w: World, maxAttempts: int, m: nat, n: nat)
    requires Makes(w, maxAttempts, m) && Makes(w, maxAttempts, n)
    ensures m == n
  {
  }

  /** The delivery a run of n Sends amounts to, by what ended it. */
  ghost function Verdict(w: World, maxAttempts: int, n: nat): Delivered {
    if n == 0 then Untried
    else match Classify(w.reply(n - 1))
      case Accepted(messageId) => Success(messageId)
      case Permanent => Failure(Rejected)
      case Retryable => if n < maxAttempts then Failure(Interrupted) else Failure(Exhausted)
  }

  /** Time spent in the first n Sends and the pauses between them, and after the last if it was
      cut short. */
  ghost function Elapsed(w: World, n: nat, pauses: nat): Time
    requires pauses <= n
  {
    Total(w.took, n) + Total(w.paused, pauses)
  }

  /** How many pauses n Sends have: one follows the last only if it was cut short. */
  ghost function Pauses(w: World, maxAttempts: int, n: nat): (p: nat)
    ensures p <= n
  {
    if n == 0 then 0 else if Verdict(w, maxAttempts, n) == Failure(Interrupted) then n else n - 1
  }

  ghost function Total(f: nat -> Time, n: nat): Time {
    if n == 0 then 0 else Total(f, n - 1) + f(n - 1)
  }

  /** How a delivery ends, by the answers of the provider: an unbuilt request, no response, 429 and
      5xx are tried again until the attempts are used up or a pause is cut short; the first 200 or
      202 accepts, with the id in its body if there is one; any other status rejects at once. */
  lemma EndsByAnswers(w: World, maxAttempts: int, n: nat)
    requires Makes(w, maxAttempts, n)
    ensures n == 0 <==> maxAttempts <= 0
    ensures n == 0 ==> Verdict(w, maxAttempts, n) == Untried
    ensures maxAttempts > 0 ==> n <= maxAttempts
    ensures forall k: nat | k + 1 < n ::
              && (w.reply(k).Status? ==> w.reply(k).code == 429 || w.reply(k).code >= 500)
              && !w.interrupted(k)
    ensures n > 0 && w.reply(n - 1).Status? && w.reply(n - 1).code in {200, 202} ==>
              Verdict(w, maxAttempts, n) ==
                Success(if w.reply(n - 1).messageId.Some? then w.reply(n - 1).messageId.value else "")
    ensures n > 0 && w.reply(n - 1).Status? && w.reply(n - 1).code !in {200, 202, 429} && w.reply(n - 1).code < 500 ==>
              Verdict(w, maxAttempts, n) == Failure(Rejected)
    ensures n > 0 && (w.reply(n - 1).Status? ==> w.reply(n - 1).code == 429 || w.reply(n - 1).code >= 500) ==>
              if n == maxAttempts then Verdict(w, maxAttempts, n) == Failure(Exhausted)
              else w.interrupted(n - 1) && Verdict(w, maxAttempts, n) == Failure(Interrupted)
  {
    forall k: nat | k + 1 < n
      ensures (w.reply(k).Status? ==> w.reply(k).code == 429 || w.reply(k).code >= 500) && !w.interrupted(k)
    {
      assert GoesOn(w, maxAttempts, k);
    }
  }

  /** While every answer may be retried and no pause is cut short, all attempts are made. */
  lemma RetriesToTheEnd(w: World, maxAttempts: int, n: nat)
    requires Makes(w, maxAttempts, n) && maxAttempts > 0
    requires forall k: nat | k < maxAttempts ::
               && (w.reply(k).Status? ==> w.reply(k).code == 429 || w.reply(k).code >= 500)
               && (k + 1 < maxAttempts ==> !w.interrupted(k))
    ensures n == maxAttempts && Verdict(w, maxAttempts, n) == Failure(Exhausted)
  {
    EndsByAnswers(w, maxAttempts, n);
  }

  /** Sends at most maxAttempts times, stops at the first acceptance or permanent error, and gives
      up when the attempts are used up or a pause is cut short. */
  method Deliver(w: World, maxAttempts: int) returns (result: Delivered, sends: nat, ghost elapsed: Time)
    ensures Makes(w, maxAttempts, sends) && result == Verdict(w, maxAttempts, sends)
    ensures elapsed == Elapsed(w, sends, Pauses(w, maxAttempts, sends))
    ensures forall timeout, backoff | maxAttempts >= 0 && Bounded(w, timeout, backoff) ::
              elapsed <= WorstCase(timeout, backoff, maxAttempts)
    // the time of all Sends, of the pauses between them, and of one that was cut short
    ensures elapsed == Total(w.took, sends) +
              Total(w.paused, if sends == 0 || result == Failure(Interrupted) then sends else sends - 1)
    // no attempts, no Send
    ensures if maxAttempts <= 0 then sends == 0 && result == Untried else 0 < sends <= maxAttempts
    // every Send but the last was to be retried, and its pause was not cut short
    ensures forall k: nat | k + 1 < sends ::
              && (w.reply(k).Status? ==> w.reply(k).code == 429 || w.reply(k).code >= 500)
              && !w.interrupted(k)
    // the last decides
    ensures sends > 0 && w.reply(sends - 1).Status? && w.reply(sends - 1).code in {200, 202} ==>
              result == Success(if w.reply(sends - 1).messageId.Some? then w.reply(sends - 1).messageId.value else "")
    ensures sends > 0 && w.reply(sends - 1).Status? && w.reply(sends - 1).code !in {200, 202, 429}
              && w.reply(sends - 1).code < 500 ==>
              result == Failure(Rejected)
    ensures sends > 0 && (w.reply(sends - 1).Status? ==> w.reply(sends - 1).code == 429
                                                         || w.reply(sends - 1).code >= 500) ==>
              if sends == maxAttempts then result == Failure(Exhausted)
              else w.interrupted(sends - 1) && result == Failure(Interrupted)
  {
    EndsByAnswers(w, maxAttempts, SendsOf(w, maxAttempts));
    forall n: nat | Makes(w, maxAttempts, n) ensures n == SendsOf(w, maxAttempts) {
      MakesOnce(w, maxAttempts, n, SendsOf(w, maxAttempts));
    }
    sends, elapsed := 0, 0;
    var attempt := 1;
    while attempt <= maxAttempts
      invariant sends == attempt - 1 && (maxAttempts <= 0 ==> sends == 0) && (maxAttempts > 0 ==> sends <= maxAttempts)
      invariant forall k: nat | k + 1 < sends :: GoesOn(w, maxAttempts, k)
      invariant 0 < sends < maxAttempts ==> GoesOn(w, maxAttempts, sends - 1)
      invariant sends > 0 ==> Classify(w.reply(sends - 1)).Retryable?
      invariant elapsed == Elapsed(w, sends, if sends == 0 then 0 else if sends < maxAttempts then sends else sends - 1)
    {
      var answer := Classify(w.reply(sends));
      elapsed := elapsed + w.took(sends);
      sends := sends + 1;
      if answer.Accepted? {
        InTime(w, maxAttempts, sends, sends - 1);
        return Success(answer.messageId), sends, elapsed;
      }
      if answer.Permanent? {
        InTime(w, maxAttempts, sends, sends - 1);
        return Failure(Rejected), sends, elapsed;
      }
      if attempt < maxAttempts {
        elapsed := elapsed + w.paused(sends - 1);
        if w.interrupted(sends - 1) {
          InTime(w, maxAttempts, sends, sends);
          return Failure(Interrupted), sends, elapsed;
        }
      }
      attempt := attempt + 1;
    }
    InTime(w, maxAttempts, sends, if sends == 0 then 0 else sends - 1);
    result := if maxAttempts <= 0 then Untried else Failure(Exhausted);
  }

  /** A dead letter states the configured maximum as its attempt count. That is how many Sends were
      made if and only if every Send the maximum leaves room for was followed by another. */
  lemma LetterCountIff(w: World, maxAttempts: int, n: nat)
    requires Makes(w, maxAttempts, n) && Verdict(w, maxAttempts, n).Failure?
    ensures n == maxAttempts <==> forall k: nat | k + 1 < maxAttempts :: GoesOn(w, maxAttempts, k)
  {
    if n < maxAttempts { assert n - 1 + 1 < maxAttempts && !GoesOn(w, maxAttempts, n - 1); }
  }

  /** A message the provider rejects at once is sent once, whatever its letter says. */
  lemma LetterOvercounts(maxAttempts: int) returns (w: World)
    requires maxAttempts >= 2
    ensures Makes(w, maxAttempts, 1) && Verdict(w, maxAttempts, 1) == Failure(Rejected)
  {
    w := World(k => Status(400, None), k => 0, k => false, k => 0);
    assert Classify(w.reply(0)).Permanent?;
  }

  // ----- How long it takes -----

  /** The linear backoffs between n attempts: once, twice, ... (n - 1) times the base. */
  function BackoffSum(backoff: Time, n: nat): Time {
    if n <= 1 then 0 else BackoffSum(backoff, n - 1) + backoff * (n - 1)
  }

  lemma {:induction false} BackoffSumClosed(backoff: Time, n: nat)
    ensures 2 * BackoffSum(backoff, n) == backoff * (n * (n - 1))
  {
    if n > 1 {
      BackoffSumClosed(backoff, n - 1);
      calc {
        backoff * ((n - 1) * (n - 2)) + 2 * (backoff * (n - 1));
        backoff * ((n - 1) * (n - 2) + 2 * (n - 1));
        backoff * (n * (n - 1));
      }
    }
  }

  function WorstCase(timeout: Time, backoff: Time, n: nat): Time { timeout * n + BackoffSum(backoff, n) }

  /** Each Send is bounded by the client's timeout, and the pause after the k-th by k times the backoff. */
  ghost predicate Bounded(w: World, timeout: Time, backoff: Time) {
    && (forall k: nat :: 0 <= w.took(k) <= timeout)
    && (forall k: nat :: 0 <= w.paused(k) <= backoff * (k + 1))
  }

  lemma {:induction false} TotalBound(w: World, timeout: Time, backoff: Time, n: nat)
    requires Bounded(w, timeout, backoff)
    ensures 0 <= Total(w.took, n) <= timeout * n && 0 <= Total(w.paused, n) <= BackoffSum(backoff, n + 1)
  {
    if n > 0 {
      TotalBound(w, timeout, backoff, n - 1);
      assert timeout * n == timeout * (n - 1) + timeout;
    }
  }

  lemma {:induction false} BackoffSumGrows(backoff: Time, m: nat, n: nat)
    requires backoff >= 0 && m <= n
    ensures BackoffSum(backoff, m) <= BackoffSum(backoff, n)
  {
    if m < n {
      BackoffSumGrows(backoff, m, n - 1);
      assert backoff * (n - 1) >= 0;
    }
  }

  lemma MoreTakesLonger(unit: Time, a: nat, b: nat)
    requires unit >= 0 && a <= b
    ensures unit * a <= unit * b
  {
    assert unit * b == unit * a + unit * (b - a);
    assert unit * (b - a) >= 0;
  }

  /** Every delivery of at most n attempts, however it ends, fits the worst case. */
  lemma DeliveryFits(w: World, timeout: Time, backoff: Time, n: nat, sends: nat, pauses: nat)
    requires Bounded(w, timeout, backoff) && sends <= n && pauses <= sends && (n > 0 ==> pauses < n)
    ensures 0 <= Elapsed(w, sends, pauses) <= WorstCase(timeout, backoff, n)
  {
    TotalBound(w, timeout, backoff, sends);
    TotalBound(w, timeout, backoff, pauses);
    assert 0 <= w.took(0) <= timeout && 0 <= w.paused(0) <= backoff * (0 + 1);
    hide Total, BackoffSum, Bounded;
    MoreTakesLonger(timeout, sends, n);
    BackoffSumGrows(backoff, pauses + 1, if n > 0 then n else 1);
    assert BackoffSum(backoff, if n > 0 then n else 1) == BackoffSum(backoff, n) by { NoBackoffYet(backoff); }
  }

  lemma NoBackoffYet(backoff: Time)
    ensures BackoffSum(backoff, 0) == BackoffSum(backoff, 1) == 0
  {
  }

  /** The bound on a delivery, for all timeouts and backoffs that bound its parts. */
  lemma InTime(w: World, maxAttempts: int, sends: nat, pauses: nat)
    requires sends <= (if maxAttempts > 0 then maxAttempts else 0) && pauses <= sends
    requires maxAttempts > 0 ==> pauses < maxAttempts
    ensures forall timeout, backoff | maxAttempts >= 0 && Bounded(w, timeout, backoff) ::
              Elapsed(w, sends, pauses) <= WorstCase(timeout, backoff, maxAttempts)
  {
    forall timeout, backoff | maxAttempts >= 0 && Bounded(w, timeout, backoff)
      ensures Elapsed(w, sends, pauses) <= WorstCase(timeout, backoff, maxAttempts)
    {
      DeliveryFits(w, timeout, backoff, maxAttempts, sends, pauses);
    }
  }

  /** The provider times out on every attempt and no pause is cut short. */
  function Slowest(timeout: Time, backoff: Time): World {
    World(k => NoResponse, k => timeout, k => false, (k: nat) => backoff * (k + 1))
  }

  lemma {:induction false} SlowestTotals(timeout: Time, backoff: Time, n: nat)
    ensures Total(Slowest(timeout, backoff).took, n) == timeout * n
    ensures Total(Slowest(timeout, backoff).paused, n) == BackoffSum(backoff, n + 1)
  {
    if n > 0 {
      SlowestTotals(timeout, backoff, n - 1);
      assert timeout * n == timeout * (n - 1) + timeout;
    }
  }

  /** And the bound is tight: this is how long n attempts take at worst. */
  lemma WorstCaseHappens(timeout: Time, backoff: Time, n: nat)
    requires timeout >= 0 && backoff >= 0 && n > 0
    ensures Bounded(Slowest(timeout, backoff), timeout, backoff)
    ensures Elapsed(Slowest(timeout, backoff), n, n - 1) == WorstCase(timeout, backoff, n)
    ensures forall k: nat | k + 1 < n :: GoesOn(Slowest(timeout, backoff), n, k)
  {
    SlowestTotals(timeout, backoff, n);
    SlowestTotals(timeout, backoff, n - 1);
    forall k: nat ensures 0 <= Slowest(timeout, backoff).paused(k) <= backoff * (k + 1) {
      assert backoff * (k + 1) >= 0;
    }
  }

  // ----- The reaper's window -----

  /** 30 seconds, in nanoseconds. */
  const MARGIN := 30_000_000_000

  /** The window as configured, raised to timeout x attempts + 30 s where it is shorter. */
  method FloorInflight(configured: Time, timeout: Time, attempts: int) returns (inflightAfter: Time)
    ensures inflightAfter == Floored(configured, timeout, attempts)
    ensures configured <= inflightAfter && timeout * attempts + 30_000_000_000 <= inflightAfter
    ensures inflightAfter == configured || inflightAfter == timeout * attempts + 30_000_000_000
  {
    var worstCase := timeout * attempts + MARGIN;
    inflightAfter := configured;
    if inflightAfter < worstCase {
      inflightAfter := worstCase;
    }
  }

  function Floored(configured: Time, timeout: Time, attempts: int): Time {
    if configured < timeout * attempts + MARGIN then timeout * attempts + MARGIN else configured
  }

  /** The floor covers every delivery, with an overhead for the limiter, the dead-letter write and
      the database around it, whatever window was configured, exactly when the backoffs and the
      overhead fit into the margin: neither is part of the formula. */
  lemma FloorCoversIff(timeout: Time, backoff: Time, n: nat, overhead: Time)
    ensures (forall configured :: WorstCase(timeout, backoff, n) + overhead <= Floored(configured, timeout, n))
       <==> BackoffSum(backoff, n) + overhead <= 30_000_000_000
  {
    var floor := timeout * n + MARGIN;
    assert Floored(floor, timeout, n) == floor;
  }

  /** With the default base backoff of 500 ms the backoffs fit into the margin up to eleven
      attempts, and no further. */
  lemma DefaultBackoffFitsIff(n: nat)
    ensures BackoffSum(500_000_000, n) <= 30_000_000_000 <==> n <= 11
  {
    BackoffSumClosed(500_000_000, n);
    if n <= 11 {
      BackoffSumGrows(500_000_000, n, 11);
      BackoffSumClosed(500_000_000, 11);
    } else {
      BackoffSumGrows(500_000_000, 12, n);
      BackoffSumClosed(500_000_000, 12);
    }
  }
}
