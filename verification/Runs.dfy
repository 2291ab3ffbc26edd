/** Putting runs together, and one notification on its way.

    The first lemmas join runs, also runs in which every claim ends in time. The others follow a
    single notification, alone in the system, through the steps that the counterexamples of other
    modules begin with, up to the one run that shows what 'sent' does not mean when
    RETRY_MAX_ATTEMPTS is zero or negative. */
module Runs {
  import opened Domain
  import opened Table
  import opened Protocol

  lemma {:induction false} RunAppend(cfg: Config, s: State, a: seq<Step>, b: seq<Step>)
    requires Valid(cfg, s, a) && Valid(cfg, Run(cfg, s, a), b)
    ensures Valid(cfg, s, a + b) && Run(cfg, s, a + b) == Run(cfg, Run(cfg, s, a), b)
    decreases |a|
  {
    hide Enabled, Apply;
    if a == [] {
      assert a + b == b;
    } else {
      RunAppend(cfg, Apply(cfg, s, a[0]), a[1..], b);
      assert (a + b)[1..] == a[1..] + b;
    }
  }

  lemma RunOne(cfg: Config, s: State, step: Step)
    requires Enabled(cfg, s, step)
    ensures Valid(cfg, s, [step]) && Run(cfg, s, [step]) == Apply(cfg, s, step)
  {
    assert [step][1..] == [];
  }

  lemma ReachableStep(cfg: Config, s: State, step: Step)
    requires Reachable(cfg, s) && Enabled(cfg, s, step)
    ensures Reachable(cfg, Apply(cfg, s, step))
  {
    hide Enabled, Apply;
    var steps :| Valid(cfg, INIT, steps) && Run(cfg, INIT, steps) == s;
    RunOne(cfg, s, step);
    RunAppend(cfg, INIT, steps, [step]);
    assert Run(cfg, INIT, steps + [step]) == Apply(cfg, s, step);
  }

  lemma {:induction false} TimelyRunGrows(cfg: Config, s: State, steps: seq<Step>, step: Step, pace: Pace)
    requires Valid(cfg, s, steps) && TimelyRun(cfg, s, steps, pace)
    requires Enabled(cfg, Run(cfg, s, steps), step) && Timely(Apply(cfg, Run(cfg, s, steps), step), pace)
    ensures TimelyRun(cfg, s, steps + [step], pace)
    decreases |steps|
  {
    hide Enabled, Apply, Timely;
    if steps == [] {
      assert [step][1..] == [] && steps + [step] == [step];
    } else {
      TimelyRunGrows(cfg, Apply(cfg, s, steps[0]), steps[1..], step, pace);
      assert (steps + [step])[1..] == steps[1..] + [step];
    }
  }

  lemma InTimeStep(cfg: Config, s: State, step: Step, pace: Pace)
    requires ReachableInTime(cfg, s, pace) && Enabled(cfg, s, step) && Timely(Apply(cfg, s, step), pace)
    ensures ReachableInTime(cfg, Apply(cfg, s, step), pace)
  {
    hide Enabled, Apply, Timely;
    var steps :| Valid(cfg, INIT, steps) && TimelyRun(cfg, INIT, steps, pace) && Run(cfg, INIT, steps) == s;
    RunOne(cfg, s, step);
    RunAppend(cfg, INIT, steps, [step]);
    TimelyRunGrows(cfg, INIT, steps, step, pace);
    assert Run(cfg, INIT, steps + [step]) == Apply(cfg, s, step);
  }

  lemma InTimeIsReachable(cfg: Config, s: State, pace: Pace)
    requires ReachableInTime(cfg, s, pace)
    ensures Reachable(cfg, s)
  {
    hide Enabled, Apply, Timely;
    var steps :| Valid(cfg, INIT, steps) && TimelyRun(cfg, INIT, steps, pace) && Run(cfg, INIT, steps) == s;
  }

  // ----- One notification on its way, alone in the system -----

  const SAMPLE := Draft(1, None, None, "+905551234567", Sms, "hello", High, None, 0)

  /** The only notification there is has this row, these workers hold it and these transactions lock it. */
  ghost predicate Alone(s: State, clock: Time, row: Row, accepts: nat, workers: map<nat, Worker>, txs: map<nat, Tx>) {
    && s.clock == clock && s.rows == map[1 := row] && s.workers == workers && s.txs == txs
    && s.hist.Keys == {1} && s.hist[1].accepts == accepts && s.hist[1].abandons == 0
    && row.draft == SAMPLE && RecordOf(SAMPLE) in s.published
  }

  /** The worker that claimed the sample at time 0. */
  function Carrier(phase: Phase, since: Time, spent: Time): Worker {
    Worker(Sms, MessageOf(SAMPLE), phase, 0, since, spent)
  }

  /** Things may take no time at all. */
  predicate Patient(pace: Pace) {
    match pace
    case Lifetime(limit) => limit >= 0
    case Parts(timeout, backoff, overhead) => timeout >= 0 && backoff >= 0 && overhead >= 0
  }

  const SAMPLE_INSERT := Insert(0, true, [SAMPLE])

  lemma SampleInserts(cfg: Config)
    ensures Enabled(cfg, INIT, SAMPLE_INSERT)
    ensures var s := Apply(cfg, INIT, SAMPLE_INSERT);
            s == INIT.(rows := map[1 := FreshRow(SAMPLE)], requests := map[0 := Inserted(true, {SAMPLE}, {})],
                       replies := s.replies, hist := map[1 := UNTOUCHED])
  {
    assert [SAMPLE][..0] == [];
    assert InsertAll(map[], [SAMPLE]) == map[1 := FreshRow(SAMPLE)];
    var s := Apply(cfg, INIT, SAMPLE_INSERT);
    assert (set x | x in [SAMPLE] && x.id in s.rows) == {SAMPLE};
    assert (set x | x in [SAMPLE] && x.id !in s.rows) == {};
    assert s.requests == map[0 := Inserted(true, {SAMPLE}, {})];
  }

  lemma SampleInserted(cfg: Config, pace: Pace) returns (s: State)
    ensures ReachableInTime(cfg, s, pace) && s.clock == 0 && s.rows == map[1 := FreshRow(SAMPLE)]
    ensures s.requests == map[0 := Inserted(true, {SAMPLE}, {})] && s.workers == map[] && s.txs == map[]
    ensures s.hist == map[1 := UNTOUCHED]
  {
    assert Valid(cfg, INIT, []) && TimelyRun(cfg, INIT, [], pace) && Run(cfg, INIT, []) == INIT;
    hide ReachableInTime, TimelyRun, Enabled, Apply;
    SampleInserts(cfg);
    InTimeStep(cfg, INIT, SAMPLE_INSERT, pace);
    s := Apply(cfg, INIT, SAMPLE_INSERT);
  }

  /** The sample is inserted and published; its row is still pending. */
  lemma SamplePublished(cfg: Config, pace: Pace) returns (s: State)
    ensures ReachableInTime(cfg, s, pace) && Alone(s, 0, FreshRow(SAMPLE), 0, map[], map[])
  {
    var s1 := SampleInserted(cfg, pace);
    hide ReachableInTime;
    assert PendingOf({SAMPLE}) == {SAMPLE} && IdsOf({SAMPLE}) == {1};
    InTimeStep(cfg, s1, Publish(0, true, {1}), pace);
    s := Apply(cfg, s1, Publish(0, true, {1}));
    assert RecordOf(SAMPLE) in RecordsOf({SAMPLE}, {1});
  }

  /** The reaper selects the only row there is. */
  lemma SampleSelects(cfg: Config, s: State, row: Row)
    requires s.rows == map[1 := row] && s.txs == map[] && cfg.reapLimit >= 1
    requires Eligible(KindOf(cfg, true), row, s.clock)
    ensures var select := Select(0, true, s.clock, s.clock, {1});
            Enabled(cfg, s, select)
            && Apply(cfg, s, select) == s.(txs := map[0 := Tx(KindOf(cfg, true), s.rows, s.clock, false)])
  {
    var select := Select(0, true, s.clock, s.clock, {1});
    assert |{1}| <= LimitOf(cfg, true) && Enabled(cfg, s, select);
    var t := Apply(cfg, s, select);
    assert t.txs[0].picked == s.rows;
    assert t.txs == map[0 := Tx(KindOf(cfg, true), s.rows, s.clock, false)];
  }

  /** A worker claims it and is let through by the limiter. */
  lemma SampleClaimed(cfg: Config, pace: Pace) returns (s: State)
    requires Patient(pace)
    ensures ReachableInTime(cfg, s, pace)
    ensures Alone(s, 0, ClaimedRow(FreshRow(SAMPLE), 0), 0, map[0 := Carrier(Delivering(0), 0, 0)], map[])
  {
    var s0 := SamplePublished(cfg, pace);
    var claim := Claim(0, Sms, High, MessageOf(SAMPLE), 0);
    InTimeStep(cfg, s0, claim, pace);
    var s1 := Apply(cfg, s0, claim);
    assert Alone(s1, 0, ClaimedRow(FreshRow(SAMPLE), 0), 0, map[0 := Carrier(Waiting, 0, 0)], map[]);
    InTimeStep(cfg, s1, Deliver(0, Admit), pace);
    s := Apply(cfg, s1, Deliver(0, Admit));
  }

  /** With RETRY_MAX_ATTEMPTS at zero or below, deliver's loop never runs and the row is marked
      sent although the provider was never called. */
  lemma SentUnearned(cfg: Config) returns (s: State)
    requires cfg.maxAttempts <= 0
    ensures Reachable(cfg, s) && 1 in s.rows && 1 in s.hist && s.rows[1].status == Sent && s.hist[1].accepts == 0
  {
    var s0 := SampleClaimed(cfg, Lifetime(0));
    InTimeStep(cfg, s0, Deliver(0, SkipSending), Lifetime(0));
    var s1 := Apply(cfg, s0, Deliver(0, SkipSending));
    assert Alone(s1, 0, ClaimedRow(FreshRow(SAMPLE), 0), 0, map[0 := Carrier(Accepted, 0, 0)], map[]);
    InTimeStep(cfg, s1, MarkSent(0, "", 0), Lifetime(0));
    s := Apply(cfg, s1, MarkSent(0, "", 0));
    InTimeIsReachable(cfg, s, Lifetime(0));
  }
}
