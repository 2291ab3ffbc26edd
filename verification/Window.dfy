/** How long the reaper's in-flight window must be, and the runs that show that it must. */
module Window {
  import opened Domain
  import opened Table
  import opened Protocol
  import opened Invariants
  import opened Runs
  import opened Lease
  import Delivery

  // The lease, exclusive claims, final statuses and silence after a final write hold in every run
  // whose claims end in time if and only if the window is at least as long as a claim can take; the
  // runs that break them otherwise are as slow as the pace allows.

  /** The longest a claim lives at this pace. */
  function Longest(cfg: Config, pace: Pace): Time
    requires WellTimed(cfg, pace)
  {
    match pace
    case Lifetime(limit) => limit
    case Parts(timeout, backoff, overhead) => Delivery.WorstCase(timeout, backoff, cfg.maxAttempts) + overhead
  }

  /** Where the parts of a claim are known, they are durations and deliver's loop runs. */
  predicate WellTimed(cfg: Config, pace: Pace) { pace.Parts? ==> Patient(pace) && cfg.maxAttempts >= 1 }

  // ----- From the parts of a claim to its lifetime, in every run -----

  /** What the Sends and pauses before this phase may have taken. */
  function TimeDelivering(cfg: Config, phase: Phase, timeout: Time, backoff: Time): Time
    requires cfg.maxAttempts >= 1
  {
    match phase
    case Waiting => 0
    case Delivering(k) => Delivery.WorstCase(timeout, backoff, k)
    case _ => Delivery.WorstCase(timeout, backoff, cfg.maxAttempts)
  }

  /** A claim's time so far is its overhead and what its Sends and pauses took. */
  predicate LaidOut(cfg: Config, w: Worker, timeout: Time, backoff: Time)
    requires cfg.maxAttempts >= 1
  {
    && (w.phase.Delivering? ==> w.phase.sends < cfg.maxAttempts)
    && w.since - w.claimedAt <= w.spent + TimeDelivering(cfg, w.phase, timeout, backoff)
  }

  ghost predicate AllLaidOut(cfg: Config, s: State, pace: Pace)
    requires pace.Parts? && cfg.maxAttempts >= 1
  {
    forall w | w in s.workers :: LaidOut(cfg, s.workers[w], pace.timeout, pace.backoff)
  }

  /** One more Send, and the pause before it. */
  lemma OneMoreSend(timeout: Time, backoff: Time, k: nat, n: nat)
    requires timeout >= 0 && backoff >= 0 && k < n
    ensures Delivery.WorstCase(timeout, backoff, k + 1)
         == Delivery.WorstCase(timeout, backoff, k) + timeout + backoff * k
    ensures Delivery.WorstCase(timeout, backoff, k + 1) <= Delivery.WorstCase(timeout, backoff, n)
  {
    assert timeout * (k + 1) == timeout * k + timeout;
    if k == 0 { assert backoff * k == 0; }
    Delivery.MoreTakesLonger(timeout, k + 1, n);
    Delivery.BackoffSumGrows(backoff, k + 1, n);
  }

  /** A worker that is on time with its parts is on time with its claim. */
  lemma PartsFit(cfg: Config, w: Worker, clock: Time, pace: Pace)
    requires pace.Parts? && WellTimed(cfg, pace)
    requires LaidOut(cfg, w, pace.timeout, pace.backoff) && OnTime(w, clock, pace)
    ensures OnTime(w, clock, Lifetime(Longest(cfg, pace)))
  {
    var n := cfg.maxAttempts;
    if w.phase.Delivering? { OneMoreSend(pace.timeout, pace.backoff, w.phase.sends, n); }
    hide Delivery.WorstCase;
    assert Delivery.WorstCase(pace.timeout, pace.backoff, 0) <= Delivery.WorstCase(pace.timeout, pace.backoff, n) by {
      OneMoreSend(pace.timeout, pace.backoff, 0, n);
    }
  }

  lemma MoveLaysOut(cfg: Config, w: Worker, clock: Time, pace: Pace, action: Action)
    requires pace.Parts? && WellTimed(cfg, pace)
    requires LaidOut(cfg, w, pace.timeout, pace.backoff) && OnTime(w, clock, pace) && Follows(cfg, w.phase, action)
    ensures LaidOut(cfg, Moved(w, PhaseAfter(cfg, w.phase, action), clock), pace.timeout, pace.backoff)
  {
    if w.phase.Delivering? { OneMoreSend(pace.timeout, pace.backoff, w.phase.sends, cfg.maxAttempts); }
    assert Delivery.WorstCase(pace.timeout, pace.backoff, 0) == 0;
    hide Delivery.WorstCase;
  }

  lemma StepLaysOut(cfg: Config, s: State, step: Step, pace: Pace)
    requires pace.Parts? && WellTimed(cfg, pace) && AllLaidOut(cfg, s, pace) && Timely(s, pace) && Enabled(cfg, s, step)
    ensures AllLaidOut(cfg, Apply(cfg, s, step), pace)
  {
    if step.Deliver? {
      MoveLaysOut(cfg, s.workers[step.wid], s.clock, pace, step.action);
    }
    hide OnTime, InsertAll, Eligible, Table.MarkQueued, Requeue, RecordOf, FreshIds;
    hide Delivery.WorstCase;
    assert step.Claim? ==> TimeDelivering(cfg, Waiting, pace.timeout, pace.backoff) == 0;
  }

  lemma {:induction false} RunFits(cfg: Config, s: State, steps: seq<Step>, pace: Pace)
    requires pace.Parts? && WellTimed(cfg, pace) && AllLaidOut(cfg, s, pace)
    requires Valid(cfg, s, steps) && TimelyRun(cfg, s, steps, pace)
    ensures TimelyRun(cfg, s, steps, Lifetime(Longest(cfg, pace)))
    decreases |steps|
  {
    forall w | w in s.workers ensures OnTime(s.workers[w], s.clock, Lifetime(Longest(cfg, pace))) {
      PartsFit(cfg, s.workers[w], s.clock, pace);
    }
    hide Enabled, Apply, OnTime, AllLaidOut, LaidOut;
    if steps != [] {
      StepLaysOut(cfg, s, steps[0], pace);
      RunFits(cfg, Apply(cfg, s, steps[0]), steps[1..], pace);
    }
  }

  /** In every run whose Sends, pauses and overheads keep their bounds, no claim outlives the worst
      case of the retry loop plus the overhead. */
  lemma PartsBoundLifetime(cfg: Config, s: State, pace: Pace)
    requires WellTimed(cfg, pace) && ReachableInTime(cfg, s, pace)
    ensures ReachableInTime(cfg, s, Lifetime(Longest(cfg, pace)))
  {
    hide Enabled, Apply, OnTime, Longest;
    if pace.Parts? {
      var steps :| Valid(cfg, INIT, steps) && TimelyRun(cfg, INIT, steps, pace) && Run(cfg, INIT, steps) == s;
      RunFits(cfg, INIT, steps, pace);
    } else {
      assert pace == Lifetime(Longest(cfg, pace)) by { LifetimeIsLongest(cfg, pace); }
    }
  }

  lemma LifetimeIsLongest(cfg: Config, pace: Pace)
    requires pace.Lifetime?
    ensures pace == Lifetime(Longest(cfg, pace))
  {
  }

  // ----- The slowest run at a pace -----

  /** When the k-th Send of a delivery that uses up all its time begins its pause. */
  function Begins(pace: Pace, k: nat): Time
    requires pace.Parts?
  {
    Delivery.WorstCase(pace.timeout, pace.backoff, k)
  }

  /** The limiter keeps the worker waiting for this long. */
  lemma SlowStart(cfg: Config, pace: Pace, lag: Time) returns (s: State)
    requires pace.Parts? && WellTimed(cfg, pace) && 0 <= lag <= pace.overhead
    ensures ReachableInTime(cfg, s, pace)
    ensures Alone(s, lag, ClaimedRow(FreshRow(SAMPLE), 0), 0, map[0 := Carrier(Delivering(0), lag, lag)], map[])
  {
    var s0 := SamplePublished(cfg, pace);
    hide ReachableInTime;
    var claim := Claim(0, Sms, High, MessageOf(SAMPLE), 0);
    InTimeStep(cfg, s0, claim, pace);
    var s1 := Apply(cfg, s0, claim);
    assert Alone(s1, 0, ClaimedRow(FreshRow(SAMPLE), 0), 0, map[0 := Carrier(Waiting, 0, 0)], map[]);
    s := SlowAdmission(cfg, pace, lag, s1);
  }

  lemma SlowAdmission(cfg: Config, pace: Pace, lag: Time, s0: State) returns (s: State)
    requires pace.Parts? && WellTimed(cfg, pace) && 0 <= lag <= pace.overhead && ReachableInTime(cfg, s0, pace)
    requires Alone(s0, 0, ClaimedRow(FreshRow(SAMPLE), 0), 0, map[0 := Carrier(Waiting, 0, 0)], map[])
    ensures ReachableInTime(cfg, s, pace)
    ensures Alone(s, lag, ClaimedRow(FreshRow(SAMPLE), 0), 0, map[0 := Carrier(Delivering(0), lag, lag)], map[])
  {
    hide ReachableInTime;
    InTimeStep(cfg, s0, Advance(lag), pace);
    var s1 := Apply(cfg, s0, Advance(lag));
    InTimeStep(cfg, s1, Deliver(0, Admit), pace);
    s := Apply(cfg, s1, Deliver(0, Admit));
  }

  /** At its k-th Send, after it waited for the lag. */
  function Sender(pace: Pace, lag: Time, k: nat): Worker
    requires pace.Parts?
  {
    Carrier(Delivering(k), lag + Begins(pace, k), lag)
  }

  /** Every Send before the k-th took its timeout and failed, and every pause its whole backoff. */
  lemma {:induction false} SlowSends(cfg: Config, pace: Pace, lag: Time, k: nat) returns (s: State)
    requires pace.Parts? && WellTimed(cfg, pace) && 0 <= lag <= pace.overhead && k < cfg.maxAttempts
    ensures ReachableInTime(cfg, s, pace)
    ensures Alone(s, lag + Begins(pace, k), ClaimedRow(FreshRow(SAMPLE), 0), 0, map[0 := Sender(pace, lag, k)], map[])
  {
    if k == 0 {
      s := SlowStart(cfg, pace, lag);
    } else {
      var s0 := SlowSends(cfg, pace, lag, k - 1);
      s := SlowSend(cfg, pace, lag, k - 1, s0, Retry);
    }
  }

  /** Nothing happens until then, and the worker is on time all along. */
  lemma WaitsUntil(cfg: Config, pace: Pace, s0: State, accepts: nat, me: Worker, to: Time) returns (s: State)
    requires ReachableInTime(cfg, s0, pace) && s0.clock <= to && OnTime(me, to, pace)
    requires Alone(s0, s0.clock, ClaimedRow(FreshRow(SAMPLE), 0), accepts, map[0 := me], map[])
    ensures ReachableInTime(cfg, s, pace) && Timely(s, pace)
    ensures Alone(s, to, ClaimedRow(FreshRow(SAMPLE), 0), accepts, map[0 := me], map[])
  {
    hide ReachableInTime, OnTime;
    var wait := Advance(to);
    assert Enabled(cfg, s0, wait);
    s := Apply(cfg, s0, wait);
    hide Enabled, Apply;
    InTimeStep(cfg, s0, wait, pace);
  }

  /** Within its bounds to the last, and at once after the answer. */
  lemma SlowSendIsOnTime(cfg: Config, pace: Pace, lag: Time, k: nat)
    requires pace.Parts? && WellTimed(cfg, pace) && 0 <= lag <= pace.overhead && k < cfg.maxAttempts
    ensures Begins(pace, k) <= Begins(pace, k + 1)
    ensures OnTime(Sender(pace, lag, k), lag + Begins(pace, k + 1), pace)
  {
    OneMoreSend(pace.timeout, pace.backoff, k, cfg.maxAttempts);
    Delivery.MoreTakesLonger(pace.backoff, 0, k);
  }

  lemma AnsweredIsOnTime(cfg: Config, pace: Pace, lag: Time, phase: Phase, since: Time)
    requires pace.Parts? && WellTimed(cfg, pace) && 0 <= lag <= pace.overhead
    ensures OnTime(Carrier(phase, since, lag), since, pace)
  {
    if phase.Delivering? { Delivery.MoreTakesLonger(pace.backoff, 0, phase.sends); }
  }

  /** The next Send, after its pause, takes its whole timeout, and then it is answered. */
  lemma SlowSend(cfg: Config, pace: Pace, lag: Time, k: nat, s0: State, response: Response) returns (s: State)
    requires pace.Parts? && WellTimed(cfg, pace) && 0 <= lag <= pace.overhead && k < cfg.maxAttempts
    requires ReachableInTime(cfg, s0, pace)
    requires Alone(s0, lag + Begins(pace, k), ClaimedRow(FreshRow(SAMPLE), 0), 0, map[0 := Sender(pace, lag, k)], map[])
    ensures ReachableInTime(cfg, s, pace)
    ensures Alone(s, lag + Begins(pace, k + 1), ClaimedRow(FreshRow(SAMPLE), 0), if response == Accept then 1 else 0,
                  map[0 := Carrier(PhaseAfter(cfg, Delivering(k), Send(response)), lag + Begins(pace, k + 1), lag)],
                      map[])
  {
    SlowSendIsOnTime(cfg, pace, lag, k);
    var s1 := WaitsUntil(cfg, pace, s0, 0, Sender(pace, lag, k), lag + Begins(pace, k + 1));
    AnsweredIsOnTime(cfg, pace, lag, PhaseAfter(cfg, Delivering(k), Send(response)), lag + Begins(pace, k + 1));
    hide ReachableInTime, OnTime, Begins;
    var send := Deliver(0, Send(response));
    assert Enabled(cfg, s1, send);
    s := Apply(cfg, s1, send);
    InTimeStep(cfg, s1, send, pace);
  }

  /** A worker has its acceptance, the pace allows it to live still, and no longer. */
  lemma Overdue(cfg: Config, pace: Pace) returns (s: State, me: Worker)
    requires WellTimed(cfg, pace) && Patient(pace)
    ensures ReachableInTime(cfg, s, pace) && Timely(s, pace) && me.phase == Accepted && me.msg == MessageOf(SAMPLE)
    ensures Alone(s, Longest(cfg, pace), ClaimedRow(FreshRow(SAMPLE), 0), if cfg.maxAttempts >= 1 then 1 else 0,
                  map[0 := me], map[])
  {
    var s1: State;
    if pace.Lifetime? {
      s1, me := QuickAcceptance(cfg, pace);
    } else {
      var s0 := SlowSends(cfg, pace, 0, cfg.maxAttempts - 1);
      s1 := SlowSend(cfg, pace, 0, cfg.maxAttempts - 1, s0, Accept);
      me := Carrier(Accepted, Begins(pace, cfg.maxAttempts), 0);
    }
    hide ReachableInTime, Delivery.WorstCase;
    var late := Advance(Longest(cfg, pace));
    InTimeStep(cfg, s1, late, pace);
    s := Apply(cfg, s1, late);
  }

  lemma QuickAcceptance(cfg: Config, pace: Pace) returns (s: State, me: Worker)
    requires pace.Lifetime? && Patient(pace)
    ensures ReachableInTime(cfg, s, pace) && me == Carrier(Accepted, 0, 0)
    ensures Alone(s, 0, ClaimedRow(FreshRow(SAMPLE), 0), if cfg.maxAttempts >= 1 then 1 else 0, map[0 := me], map[])
  {
    var s0 := SampleClaimed(cfg, pace);
    hide ReachableInTime;
    var action := if cfg.maxAttempts >= 1 then Send(Accept) else SkipSending;
    me := Carrier(Accepted, 0, 0);
    InTimeStep(cfg, s0, Deliver(0, action), pace);
    s := Apply(cfg, s0, Deliver(0, action));
  }

  // ----- What the reaper does to it -----

  /** The reaper selects the row of a worker that is still at work. */
  lemma OverdueSelected(cfg: Config, pace: Pace, s0: State, late: Time, accepts: nat, me: Worker) returns (s: State)
    requires 0 <= cfg.inflightAfter < late && cfg.reapLimit >= 1 && ReachableInTime(cfg, s0, pace) && Timely(s0, pace)
    requires Alone(s0, late, ClaimedRow(FreshRow(SAMPLE), 0), accepts, map[0 := me], map[])
    ensures ReachableInTime(cfg, s, pace) && s == s0.(txs := map[0 := Tx(KindOf(cfg, true), s0.rows, late, false)])
  {
    var select := Select(0, true, late, late, {1});
    SampleSelects(cfg, s0, ClaimedRow(FreshRow(SAMPLE), 0));
    hide Enabled, Apply, OnTime, Alone;
    s := Apply(cfg, s0, select);
    InTimeStep(cfg, s0, select, pace);
  }

  /** The row is queued again under the worker that still holds it. */
  lemma OverdueReaped(cfg: Config, pace: Pace, s0: State, late: Time, accepts: nat, me: Worker) returns (s: State)
    requires 0 <= cfg.inflightAfter < late && cfg.reapLimit >= 1 && ReachableInTime(cfg, s0, pace) && Timely(s0, pace)
    requires Alone(s0, late, ClaimedRow(FreshRow(SAMPLE), 0), accepts, map[0 := me], map[])
    ensures ReachableInTime(cfg, s, pace) && Timely(s, pace)
    ensures Alone(s, late, ClaimedRow(FreshRow(SAMPLE), 0).(status := Queued, updatedAt := late), accepts,
                  map[0 := me], map[])
  {
    var s1 := OverdueSelected(cfg, pace, s0, late, accepts, me);
    hide ReachableInTime, OnTime, Eligible;
    var republish := Republish(0, true, {1});
    assert Enabled(cfg, s1, republish);
    var s2 := Apply(cfg, s1, republish);
    assert s2 == s0.(published := s2.published, txs := map[0 := s1.txs[0].(published := true)]);
    InTimeStep(cfg, s1, republish, pace);
    s := OverdueCommitted(cfg, pace, s2, late, accepts, me);
  }

  lemma OverdueCommitted(cfg: Config, pace: Pace, s0: State, late: Time, accepts: nat, me: Worker) returns (s: State)
    requires ReachableInTime(cfg, s0, pace) && Timely(s0, pace)
    requires s0.txs == map[0 := Tx(KindOf(cfg, true), s0.rows, late, true)]
    requires Alone(s0, late, ClaimedRow(FreshRow(SAMPLE), 0), accepts, map[0 := me], s0.txs)
    ensures ReachableInTime(cfg, s, pace) && Timely(s, pace)
    ensures Alone(s, late, ClaimedRow(FreshRow(SAMPLE), 0).(status := Queued, updatedAt := late), accepts,
                  map[0 := me], map[])
  {
    hide ReachableInTime, OnTime;
    InTimeStep(cfg, s0, Commit(0), pace);
    s := Apply(cfg, s0, Commit(0));
  }

  /** When a claim can outlive the window, the reaper reclaims a row in flight. */
  lemma Reclaimed(cfg: Config, pace: Pace) returns (s: State, me: Worker)
    requires WellTimed(cfg, pace) && 0 <= cfg.inflightAfter < Longest(cfg, pace) && cfg.reapLimit >= 1
    ensures ReachableInTime(cfg, s, pace) && Timely(s, pace) && me.phase == Accepted && me.msg == MessageOf(SAMPLE)
    ensures var late := Longest(cfg, pace);
            Alone(s, late, ClaimedRow(FreshRow(SAMPLE), 0).(status := Queued, updatedAt := late),
                  if cfg.maxAttempts >= 1 then 1 else 0, map[0 := me], map[])
  {
    var s0: State;
    s0, me := Overdue(cfg, pace);
    hide Longest;
    s := OverdueReaped(cfg, pace, s0, Longest(cfg, pace), if cfg.maxAttempts >= 1 then 1 else 0, me);
  }

  /** Then the client cancels the row, and the worker that still works on it marks it sent. */
  lemma CancelledThenSent(cfg: Config, pace: Pace) returns (s: State, step: Step)
    requires WellTimed(cfg, pace) && 0 <= cfg.inflightAfter < Longest(cfg, pace) && cfg.reapLimit >= 1
    ensures ReachableInTime(cfg, s, pace) && Enabled(cfg, s, step)
    ensures 1 in s.rows && s.rows[1].status == Cancelled
    ensures 1 in Apply(cfg, s, step).rows && Apply(cfg, s, step).rows[1].status == Sent
  {
    var s0, me := Reclaimed(cfg, pace);
    hide ReachableInTime, OnTime, Longest;
    InTimeStep(cfg, s0, Cancel(1, s0.clock), pace);
    s := Apply(cfg, s0, Cancel(1, s0.clock));
    step := MarkSent(0, "", s0.clock);
  }

  /** A worker still has a Send to make when its time has run out. */
  lemma StillSending(cfg: Config, pace: Pace) returns (s: State, me: Worker, action: Action)
    requires WellTimed(cfg, pace) && Patient(pace)
    ensures ReachableInTime(cfg, s, pace) && Timely(s, pace) && Follows(cfg, me.phase, action)
        && me.msg == MessageOf(SAMPLE)
    ensures cfg.maxAttempts >= 1 ==> action == Send(Accept)
    ensures Alone(s, Longest(cfg, pace), ClaimedRow(FreshRow(SAMPLE), 0), 0, map[0 := me], map[])
  {
    action := if cfg.maxAttempts >= 1 then Send(Accept) else SkipSending;
    if pace.Lifetime? {
      var s0 := SampleClaimed(cfg, pace);
      hide ReachableInTime;
      me := Carrier(Delivering(0), 0, 0);
      s := WaitsUntil(cfg, pace, s0, 0, me, pace.limit);
    } else {
      var n := cfg.maxAttempts - 1;
      var s0 := SlowSends(cfg, pace, pace.overhead, n);
      me := Sender(pace, pace.overhead, n);
      SlowSendIsOnTime(cfg, pace, pace.overhead, n);
      s := WaitsUntil(cfg, pace, s0, 0, me, pace.overhead + Begins(pace, n + 1));
    }
  }

  /** The client cancels, is told so, and the provider is called all the same. */
  lemma SentAfterCancel(cfg: Config, pace: Pace) returns (s: State, action: Action)
    requires WellTimed(cfg, pace) && 0 <= cfg.inflightAfter < Longest(cfg, pace) && cfg.reapLimit >= 1
    ensures ReachableInTime(cfg, s, pace) && Enabled(cfg, s, Deliver(0, action))
    ensures cfg.maxAttempts >= 1 ==> action == Send(Accept)
    ensures s.workers[0].msg.id == 1 && s.rows[1].status == Cancelled
  {
    var s0, me, a := StillSending(cfg, pace);
    var s1 := OverdueReaped(cfg, pace, s0, Longest(cfg, pace), 0, me);
    hide ReachableInTime, OnTime, Longest;
    InTimeStep(cfg, s1, Cancel(1, s1.clock), pace);
    s, action := Apply(cfg, s1, Cancel(1, s1.clock)), a;
  }

  /** Or a second worker claims it: two live workers hold one notification. */
  lemma ClaimedTwice(cfg: Config, pace: Pace) returns (s: State, me: Worker)
    requires WellTimed(cfg, pace) && 0 <= cfg.inflightAfter < Longest(cfg, pace) && cfg.reapLimit >= 1
    ensures ReachableInTime(cfg, s, pace) && Timely(s, pace) && me.phase == Accepted && me.msg == MessageOf(SAMPLE)
    ensures var late := Longest(cfg, pace);
            && s.clock == late && s.txs == map[] && s.hist.Keys == {1} && s.rows.Keys == {1}
            && s.workers == map[0 := me, 1 := Worker(Sms, MessageOf(SAMPLE), Waiting, late, late, 0)]
            && s.rows[1].attempts == 2 && s.hist[1].abandons == 0
            && s.hist[1].accepts == if cfg.maxAttempts >= 1 then 1 else 0
  {
    var s0, me0 := Reclaimed(cfg, pace);
    assert Patient(pace);
    hide ReachableInTime, Longest;
    me := me0;
    var claim := Claim(1, Sms, High, MessageOf(SAMPLE), s0.clock);
    InTimeStep(cfg, s0, claim, pace);
    s := Apply(cfg, s0, claim);
  }

  /** And the provider accepts it from both. */
  lemma AcceptedTwice(cfg: Config, pace: Pace) returns (s: State)
    requires WellTimed(cfg, pace) && 0 <= cfg.inflightAfter < Longest(cfg, pace) && cfg.reapLimit >= 1
    requires cfg.maxAttempts >= 1
    ensures ReachableInTime(cfg, s, pace)
    ensures s.workers.Keys == {0, 1} && s.workers[0].msg.id == s.workers[1].msg.id == 1
    ensures s.workers[0].phase == s.workers[1].phase == Accepted && 1 in s.hist && s.hist[1].accepts == 2
  {
    var s0, me := ClaimedTwice(cfg, pace);
    assert Patient(pace);
    hide ReachableInTime, Longest;
    InTimeStep(cfg, s0, Deliver(1, Admit), pace);
    var s1 := Apply(cfg, s0, Deliver(1, Admit));
    InTimeStep(cfg, s1, Deliver(1, Send(Accept)), pace);
    s := Apply(cfg, s1, Deliver(1, Send(Accept)));
  }

  // ----- Exactly how long the window must be -----

  /** No reaper touches a row that a live worker holds, and no two live workers hold one row. */
  ghost predicate LeaseHolds(cfg: Config, pace: Pace) {
    forall s | ReachableInTime(cfg, s, pace) :: Leased(s)
  }

  ghost predicate ClaimsExclude(cfg: Config, pace: Pace) {
    forall s | ReachableInTime(cfg, s, pace) :: Sole(s.workers)
  }

  /** No step changes a final status. */
  ghost predicate FinalStatusStands(cfg: Config, pace: Pace) {
    forall s, step, id | ReachableInTime(cfg, s, pace) && Enabled(cfg, s, step) && id in s.rows
        && s.rows[id].status in {Sent, Dead, Cancelled} ::
      id in Apply(cfg, s, step).rows && Apply(cfg, s, step).rows[id].status == s.rows[id].status
  }

  /** No worker calls the provider, or goes on with a delivery, for a final row. */
  ghost predicate FinalIsLeftAlone(cfg: Config, pace: Pace) {
    forall s, wid, action | ReachableInTime(cfg, s, pace) && CanDeliver(cfg, s, wid, action) ::
      s.rows[s.workers[wid].msg.id].status !in {Sent, Dead, Cancelled}
  }

  lemma LeasedMeans(s: State)
    ensures Leased(s) <==>
              && (forall w | w in s.workers ::
                    && s.workers[w].msg.id in s.rows && s.rows[s.workers[w].msg.id].status == Processing
                    && s.rows[s.workers[w].msg.id].updatedAt == s.workers[w].claimedAt
                    && forall t | t in s.txs :: s.workers[w].msg.id !in s.txs[t].picked)
              && (forall v, w | v in s.workers && w in s.workers && v != w ::
                    s.workers[v].msg.id != s.workers[w].msg.id)
  {
  }

  lemma LeaseHoldsIff(cfg: Config, pace: Pace)
    requires WellTimed(cfg, pace) && 0 <= cfg.inflightAfter && cfg.reapLimit >= 1
    ensures LeaseHolds(cfg, pace) <==> Longest(cfg, pace) <= cfg.inflightAfter
    ensures LeaseHolds(cfg, pace) <==> forall s | ReachableInTime(cfg, s, pace) ::
              && (forall w | w in s.workers ::
                    && s.workers[w].msg.id in s.rows && s.rows[s.workers[w].msg.id].status == Processing
                    && s.rows[s.workers[w].msg.id].updatedAt == s.workers[w].claimedAt
                    && forall t | t in s.txs :: s.workers[w].msg.id !in s.txs[t].picked)
              && (forall v, w | v in s.workers && w in s.workers && v != w ::
                    s.workers[v].msg.id != s.workers[w].msg.id)
  {
    forall s: State { LeasedMeans(s); }
    hide ReachableInTime, Longest, Sole, Unpicked, Inv;
    if Longest(cfg, pace) <= cfg.inflightAfter {
      forall s | ReachableInTime(cfg, s, pace) ensures Leased(s) {
        PartsBoundLifetime(cfg, s, pace);
        LeaseIsExclusive(cfg, s, Longest(cfg, pace));
      }
    } else {
      var s, me := Reclaimed(cfg, pace);
      assert s.workers[0] == me && s.rows[1].status == Queued;
    }
  }

  /** At most one live worker holds any row in all those runs, if and only if the window covers
      the longest claim. */
  lemma ClaimsExcludeIff(cfg: Config, pace: Pace)
    requires WellTimed(cfg, pace) && 0 <= cfg.inflightAfter && cfg.reapLimit >= 1
    ensures ClaimsExclude(cfg, pace) <==> Longest(cfg, pace) <= cfg.inflightAfter
    ensures ClaimsExclude(cfg, pace) <==> forall s, v, w |
              ReachableInTime(cfg, s, pace) && v in s.workers && w in s.workers && v != w ::
              s.workers[v].msg.id != s.workers[w].msg.id
  {
    hide ReachableInTime, Longest, Owned, Unpicked, Inv;
    if Longest(cfg, pace) <= cfg.inflightAfter {
      forall s | ReachableInTime(cfg, s, pace) ensures Sole(s.workers) {
        PartsBoundLifetime(cfg, s, pace);
        LeaseIsExclusive(cfg, s, Longest(cfg, pace));
      }
    } else {
      var s, me := ClaimedTwice(cfg, pace);
      assert s.workers[0].msg.id == s.workers[1].msg.id;
    }
  }

  /** Cancelled, sent and dead rows keep their status in all those runs, if and only if the window
      covers the longest claim. */
  lemma FinalStatusStandsIff(cfg: Config, pace: Pace)
    requires WellTimed(cfg, pace) && 0 <= cfg.inflightAfter && cfg.reapLimit >= 1
    ensures FinalStatusStands(cfg, pace) <==> Longest(cfg, pace) <= cfg.inflightAfter
    ensures FinalStatusStands(cfg, pace) <==> forall s, step, id |
              ReachableInTime(cfg, s, pace) && Enabled(cfg, s, step) && id in s.rows
              && s.rows[id].status in {Sent, Dead, Cancelled} ::
              id in Apply(cfg, s, step).rows && Apply(cfg, s, step).rows[id].status == s.rows[id].status
  {
    hide Enabled, Apply, ReachableInTime, Longest;
    if Longest(cfg, pace) <= cfg.inflightAfter {
      forall s, step, id | ReachableInTime(cfg, s, pace) && Enabled(cfg, s, step) && id in s.rows
          && s.rows[id].status in {Sent, Dead, Cancelled}
        ensures id in Apply(cfg, s, step).rows && Apply(cfg, s, step).rows[id].status == s.rows[id].status
      {
        PartsBoundLifetime(cfg, s, pace);
        FinalRowsStand(cfg, s, step, id, Longest(cfg, pace));
      }
    } else {
      var s, step := CancelledThenSent(cfg, pace);
    }
  }

  /** After a successful cancel, as after any final write, the provider is not called in all those
      runs, if and only if the window covers the longest claim. */
  lemma FinalIsLeftAloneIff(cfg: Config, pace: Pace)
    requires WellTimed(cfg, pace) && 0 <= cfg.inflightAfter && cfg.reapLimit >= 1
    ensures FinalIsLeftAlone(cfg, pace) <==> Longest(cfg, pace) <= cfg.inflightAfter
    ensures FinalIsLeftAlone(cfg, pace) <==> forall s, wid, action |
              ReachableInTime(cfg, s, pace) && Enabled(cfg, s, Deliver(wid, action)) ::
              s.rows[s.workers[wid].msg.id].status !in {Sent, Dead, Cancelled}
  {
    assert forall s, wid, action :: Enabled(cfg, s, Deliver(wid, action)) <==> CanDeliver(cfg, s, wid, action);
    hide ReachableInTime, Longest, Sole, Unpicked, Inv;
    if Longest(cfg, pace) <= cfg.inflightAfter {
      forall s, wid, action | ReachableInTime(cfg, s, pace) && CanDeliver(cfg, s, wid, action)
        ensures s.rows[s.workers[wid].msg.id].status !in {Sent, Dead, Cancelled}
      {
        PartsBoundLifetime(cfg, s, pace);
        LeaseIsExclusive(cfg, s, Longest(cfg, pace));
      }
    } else {
      var s, action := SentAfterCancel(cfg, pace);
      assert CanDeliver(cfg, s, 0, action);
    }
  }

  /** The scheduler service floors the window at timeout x attempts + 30 s so that the reaper never
      reclaims, and so double-sends, a row still in flight. Where Sends and pauses keep their
      bounds and all else takes at most the overhead, that holds if and only if the backoffs and
      the overhead fit into the 30 s, or the window was configured long enough to begin with. */
  lemma FlooredWindowSufficesIff(cfg: Config, configured: Time, timeout: Time, backoff: Time, overhead: Time)
    requires cfg.maxAttempts >= 1 && cfg.reapLimit >= 1 && timeout >= 0 && backoff >= 0 && overhead >= 0
    requires cfg.inflightAfter ==
               if configured < timeout * cfg.maxAttempts + 30_000_000_000
               then timeout * cfg.maxAttempts + 30_000_000_000 else configured
    ensures var pace := Parts(timeout, backoff, overhead);
            var backoffs := Delivery.BackoffSum(backoff, cfg.maxAttempts);
            var enough := backoffs + overhead <= 30_000_000_000
                          || timeout * cfg.maxAttempts + backoffs + overhead <= configured;
            && (LeaseHolds(cfg, pace) <==> enough)
            && (ClaimsExclude(cfg, pace) <==> enough)
            && (FinalStatusStands(cfg, pace) <==> enough)
            && (FinalIsLeftAlone(cfg, pace) <==> enough)
  {
    var pace := Parts(timeout, backoff, overhead);
    assert timeout * cfg.maxAttempts >= 0;
    hide LeaseHolds, ClaimsExclude, FinalStatusStands, FinalIsLeftAlone;
    LeaseHoldsIff(cfg, pace);
    ClaimsExcludeIff(cfg, pace);
    FinalStatusStandsIff(cfg, pace);
    FinalIsLeftAloneIff(cfg, pace);
  }
}
