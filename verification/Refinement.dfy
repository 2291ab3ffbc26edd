/** The pool's process method does what the protocol's worker steps allow: every outcome of one
    job, errors and shutdowns included, is a run of the state machine with the same table. */
module Refinement {
  import opened Domain
  import opened Table
  import opened Protocol
  import opened Runs
  import Invariants
  import Preservation
  import Delivery
  import WorkerPool

  function ResponseOf(a: Delivery.Answer): Response {
    match a case Accepted(_) => Accept case Permanent => Reject case Retryable => Retry
  }

  /** From s, the steps lead to t. */
  ghost predicate Reaches(cfg: Config, s: State, steps: seq<Step>, t: State) {
    Valid(cfg, s, steps) && Run(cfg, s, steps) == t
  }

  lemma ReachOne(cfg: Config, s: State, step: Step)
    requires Enabled(cfg, s, step)
    ensures Reaches(cfg, s, [step], Apply(cfg, s, step))
  {
    RunOne(cfg, s, step);
  }

  lemma ReachOn(cfg: Config, s: State, a: seq<Step>, t: State, b: seq<Step>, u: State)
    requires Reaches(cfg, s, a, t) && Reaches(cfg, t, b, u)
    ensures Reaches(cfg, s, a + b, u)
  {
    RunAppend(cfg, s, a, b);
  }

  // ----- Deliveries -----

  /** The worker holds a claim on a row no transaction has selected. */
  ghost predicate Working(s: State, wid: nat) {
    HasWorker(s, wid) && !Locked(s.txs, s.workers[wid].msg.id)
  }

  /** From s to t the worker came to this phase, at this time, and its Sends were counted; nothing
      else happened. */
  ghost predicate Delivers(s: State, t: State, wid: nat, phase: Phase, clock: Time, sends: nat, accepts: nat) {
    && Working(s, wid) && wid in t.workers
    && var me, now := s.workers[wid], t.workers[wid];
       && now == me.(phase := phase, since := now.since, spent := now.spent)
       && t == s.(clock := clock, workers := s.workers[wid := now], hist := t.hist)
       && t.hist == s.hist[me.msg.id := s.hist[me.msg.id].(
            sends := s.hist[me.msg.id].sends + sends, accepts := s.hist[me.msg.id].accepts + accepts)]
  }

  lemma DeliversOn(s: State, t: State, u: State, wid: nat,
      p: Phase, c: Time, a: nat, b: nat, q: Phase, d: Time, m: nat, n: nat)
    requires Delivers(s, t, wid, p, c, a, b) && Delivers(t, u, wid, q, d, m, n)
    ensures Delivers(s, u, wid, q, d, a + m, b + n)
  {
  }

  lemma DeliversAt(s: State, t: State, wid: nat, phase: Phase, clock: Time, sends: nat, accepts: nat)
    requires Delivers(s, t, wid, phase, clock, sends, accepts)
    ensures Working(t, wid) && t.workers[wid].phase == phase && t.clock == clock
  {
  }

  lemma DeliversNothing(s: State, wid: nat)
    requires Working(s, wid)
    ensures Delivers(s, s, wid, s.workers[wid].phase, s.clock, 0, 0)
  {
    assert s.workers[wid := s.workers[wid]] == s.workers;
  }

  lemma Pause(cfg: Config, s: State, wid: nat, wait: Time) returns (t: State)
    requires Working(s, wid) && wait >= 0
    ensures Reaches(cfg, s, [Advance(s.clock + wait)], t)
    ensures Delivers(s, t, wid, s.workers[wid].phase, s.clock + wait, 0, 0) && t.workers == s.workers
  {
    ReachOne(cfg, s, Advance(s.clock + wait));
    t := Apply(cfg, s, Advance(s.clock + wait));
    assert s.workers[wid := s.workers[wid]] == s.workers;
  }

  function AcceptCount(action: Action): nat { if action == Send(Accept) then 1 else 0 }

  /** One action, after some time. */
  lemma OneAction(cfg: Config, s: State, wid: nat, wait: Time, action: Action) returns (steps: seq<Step>, t: State)
    requires Working(s, wid) && wait >= 0 && Follows(cfg, s.workers[wid].phase, action)
    ensures Reaches(cfg, s, steps, t) && Claimless(steps)
    ensures Delivers(s, t, wid, PhaseAfter(cfg, s.workers[wid].phase, action), s.clock + wait,
                     if action.Send? then 1 else 0, AcceptCount(action))
  {
    var mid := Pause(cfg, s, wid, wait);
    var step := Deliver(wid, action);
    assert Enabled(cfg, mid, step);
    t := Apply(cfg, mid, step);
    ReachOne(cfg, mid, step);
    hide Reaches, Enabled, Apply;
    ReachOn(cfg, s, [Advance(s.clock + wait)], mid, [step], t);
    steps := [Advance(s.clock + wait)] + [step];
  }

  /** A run in which no claim succeeds. */
  predicate Claimless(steps: seq<Step>) { forall x | x in steps :: !x.Claim? }

  lemma ClaimlessOn(a: seq<Step>, b: seq<Step>)
    requires Claimless(a) && Claimless(b)
    ensures Claimless(a + b)
  {
  }

  /** The response to the k-th Send. */
  function ResponseTo(w: Delivery.World, k: nat): Response { ResponseOf(Delivery.Classify(w.reply(k))) }

  ghost predicate Durations(w: Delivery.World) { forall k: nat :: 0 <= w.took(k) && 0 <= w.paused(k) }

  /** The Sends that are followed by another, and the pauses after them, take the time they take. */
  lemma {:induction false} RetryMany(cfg: Config, s: State, wid: nat, w: Delivery.World, k: nat)
    returns (steps: seq<Step>, t: State)
    requires Working(s, wid) && s.workers[wid].phase == Delivering(0) && k < cfg.maxAttempts && Durations(w)
    requires forall i: nat | i < k :: ResponseTo(w, i) == Retry
    ensures Reaches(cfg, s, steps, t) && Claimless(steps)
    ensures Delivers(s, t, wid, Delivering(k), s.clock + Delivery.Elapsed(w, k, k), k, 0)
  {
    if k == 0 {
      assert Delivery.Elapsed(w, 0, 0) == 0;
      hide Enabled, Apply, Delivers;
      steps, t := [], s;
      DeliversNothing(s, wid);
    } else {
      assert Delivery.Elapsed(w, k, k) == Delivery.Elapsed(w, k - 1, k - 1) + w.took(k - 1) + w.paused(k - 1);
      hide Reaches, Delivers, ResponseTo, Claimless, Delivery.Elapsed, Working, Enabled, Apply;
      var first, mid := RetryMany(cfg, s, wid, w, k - 1);
      var from := s.clock + Delivery.Elapsed(w, k - 1, k - 1);
      DeliversAt(s, mid, wid, Delivering(k - 1), from, k - 1, 0);
      var again, last := RetryOnce(cfg, mid, wid, k - 1, w.took(k - 1), w.paused(k - 1));
      DeliversOn(s, mid, last, wid, Delivering(k - 1), from, k - 1, 0, Delivering(k),
                 from + w.took(k - 1) + w.paused(k - 1), 1, 0);
      ReachOn(cfg, s, first, mid, again, last);
      ClaimlessOn(first, again);
      steps, t := first + again, last;
    }
  }

  /** One Send that is to be retried, and the pause after it. */
  lemma RetryOnce(cfg: Config, s: State, wid: nat, k: nat, took: Time, paused: Time)
      returns (steps: seq<Step>, t: State)
    requires Working(s, wid) && s.workers[wid].phase == Delivering(k) && k + 1 < cfg.maxAttempts
    requires took >= 0 && paused >= 0
    ensures Reaches(cfg, s, steps, t) && Claimless(steps)
    ensures Delivers(s, t, wid, Delivering(k + 1), s.clock + took + paused, 1, 0)
  {
    assert AcceptCount(Send(Retry)) == 0;
    hide Reaches, Delivers, Claimless, Working, Enabled, Apply;
    var send, sent := OneAction(cfg, s, wid, took, Send(Retry));
    var c := s.clock + took;
    DeliversAt(s, sent, wid, Delivering(k + 1), c, 1, 0);
    t := Pause(cfg, sent, wid, paused);
    DeliversOn(s, sent, t, wid, Delivering(k + 1), c, 1, 0, Delivering(k + 1), c + paused, 0, 0);
    var pause := [Advance(c + paused)];
    ReachOn(cfg, s, send, sent, pause, t);
    WaitIsClaimless(c + paused);
    ClaimlessOn(send, pause);
    steps := send + pause;
  }

  lemma WaitIsClaimless(to: Time)
    ensures Claimless([Advance(to)])
  {
  }

  function EndPhase(outcome: Delivery.Delivered): Phase { if outcome.Failure? then Failed else Accepted }

  /** A whole delivery of n Sends, as the retry loop leaves it, when the loop leaves it. */
  lemma DeliverRuns(cfg: Config, s: State, wid: nat, w: Delivery.World, n: nat) returns (steps: seq<Step>, t: State)
    requires Working(s, wid) && s.workers[wid].phase == Delivering(0) && Durations(w)
    requires Delivery.Makes(w, cfg.maxAttempts, n)
    ensures Reaches(cfg, s, steps, t) && Claimless(steps)
    ensures var outcome := Delivery.Verdict(w, cfg.maxAttempts, n);
            Delivers(s, t, wid, EndPhase(outcome),
                     s.clock + Delivery.Elapsed(w, n, Delivery.Pauses(w, cfg.maxAttempts, n)),
                     n, if outcome.Success? then 1 else 0)
  {
    assert AcceptCount(SkipSending) == AcceptCount(Interrupt) == 0;
    if n == 0 {
      assert Delivery.Elapsed(w, 0, 0) == 0 && Follows(cfg, Delivering(0), SkipSending);
      hide Reaches, Delivers, Claimless, Working, Enabled, Apply, Delivery.Elapsed, Delivery.Makes, Follows,
          AcceptCount;
      steps, t := OneAction(cfg, s, wid, 0, SkipSending);
    } else {
      OthersRetried(w, cfg.maxAttempts, n);
      LastSend(cfg, w, n);
      assert n - 1 < cfg.maxAttempts;
      hide Reaches, Delivers, Claimless, Working, Enabled, Apply, ResponseTo, PhaseAfter, AcceptCount;
      hide Delivery.Verdict, Delivery.Makes, Delivery.GoesOn, Delivery.Elapsed;
      steps, t := SendsRun(cfg, s, wid, w, n);
      if Delivery.Verdict(w, cfg.maxAttempts, n) == Delivery.Failure(Delivery.Interrupted) {
        var action := Send(ResponseTo(w, n - 1));
        var phase, accepts := PhaseAfter(cfg, Delivering(n - 1), action), AcceptCount(action);
        var c := s.clock + Delivery.Elapsed(w, n, n - 1);
        var sent := t;
        DeliversAt(s, sent, wid, phase, c, n, accepts);
        var last, done := OneAction(cfg, sent, wid, w.paused(n - 1), Interrupt);
        DeliversOn(s, sent, done, wid, phase, c, n, accepts, Failed, c + w.paused(n - 1), 0, 0);
        ReachOn(cfg, s, steps, sent, last, done);
        ClaimlessOn(steps, last);
        steps, t := steps + last, done;
      }
    }
  }

  /** The Sends of a delivery, up to the answer to the last. */
  lemma SendsRun(cfg: Config, s: State, wid: nat, w: Delivery.World, n: nat) returns (steps: seq<Step>, t: State)
    requires Working(s, wid) && s.workers[wid].phase == Delivering(0) && Durations(w) && 0 < n <= cfg.maxAttempts
    requires forall i: nat | i < n - 1 :: ResponseTo(w, i) == Retry
    ensures Reaches(cfg, s, steps, t) && Claimless(steps)
    ensures Delivers(s, t, wid, PhaseAfter(cfg, Delivering(n - 1), Send(ResponseTo(w, n - 1))),
                     s.clock + Delivery.Elapsed(w, n, n - 1), n, AcceptCount(Send(ResponseTo(w, n - 1))))
  {
    assert Delivery.Elapsed(w, n, n - 1) == Delivery.Elapsed(w, n - 1, n - 1) + w.took(n - 1);
    hide Reaches, Delivers, Claimless, Working, Enabled, Apply, ResponseTo, PhaseAfter, AcceptCount, Delivery.Elapsed;
    var retries, mid := RetryMany(cfg, s, wid, w, n - 1);
    var from, action := s.clock + Delivery.Elapsed(w, n - 1, n - 1), Send(ResponseTo(w, n - 1));
    DeliversAt(s, mid, wid, Delivering(n - 1), from, n - 1, 0);
    var send, sent := OneAction(cfg, mid, wid, w.took(n - 1), action);
    DeliversOn(s, mid, sent, wid, Delivering(n - 1), from, n - 1, 0, PhaseAfter(cfg, Delivering(n - 1), action),
               from + w.took(n - 1), 1, AcceptCount(action));
    ReachOn(cfg, s, retries, mid, send, sent);
    ClaimlessOn(retries, send);
    steps, t := retries + send, sent;
  }

  lemma OthersRetried(w: Delivery.World, maxAttempts: int, n: nat)
    requires Delivery.Makes(w, maxAttempts, n)
    ensures forall i: nat | i < n - 1 :: ResponseTo(w, i) == Retry
  {
    forall i: nat | i < n - 1 ensures ResponseTo(w, i) == Retry {
      assert i + 1 < n && Delivery.GoesOn(w, maxAttempts, i);
    }
  }

  /** Where the last Send leads, and how long the delivery was. */
  lemma LastSend(cfg: Config, w: Delivery.World, n: nat)
    requires Delivery.Makes(w, cfg.maxAttempts, n) && n > 0
    ensures var outcome, phase := Delivery.Verdict(w, cfg.maxAttempts, n),
                                  PhaseAfter(cfg, Delivering(n - 1), Send(ResponseTo(w, n - 1)));
            && AcceptCount(Send(ResponseTo(w, n - 1))) == (if outcome.Success? then 1 else 0)
            && if outcome == Delivery.Failure(Delivery.Interrupted)
               then phase == Delivering(n) && n < cfg.maxAttempts && PhaseAfter(cfg, phase, Interrupt) == Failed
               else phase == EndPhase(outcome)
    ensures Delivery.Elapsed(w, n, n - 1) == Delivery.Elapsed(w, n - 1, n - 1) + w.took(n - 1)
    ensures Delivery.Elapsed(w, n, n) == Delivery.Elapsed(w, n, n - 1) + w.paused(n - 1)
  {
  }

  // ----- One job -----

  function Later(a: Time, b: Time): Time { if a < b then b else a }

  /** Whether the row never gets its final write: the claim is then abandoned. */
  predicate Unwritten(w: WorkerPool.JobWorld, outcome: Delivery.Delivered) {
    if outcome.Failure? then w.dlqFails || w.deadFails else w.sentFails
  }

  /** The last writes of a job: the dead letter, if there is one, and the row. */
  ghost predicate Finished(s: State, t: State, wid: nat, w: WorkerPool.JobWorld, outcome: Delivery.Delivered) {
    && Working(s, wid) && t.clock == Later(s.clock, w.finishedAt)
    && t.workers == s.workers - {wid} && t.txs == s.txs && t.requests == s.requests && t.published == s.published
    && var me, mine := s.workers[wid], Mine(s, wid);
       && t.hist == s.hist[me.msg.id := s.hist[me.msg.id].(
            abandons := s.hist[me.msg.id].abandons + if Unwritten(w, outcome) then 1 else 0)]
       && t.dlq == s.dlq + (if outcome.Failure? && !w.dlqFails then {Envelope(me)} else {})
       && t.rows ==
            if !outcome.Failure? && !w.sentFails
            then s.rows[me.msg.id := SentRow(mine, if outcome.Success? then outcome.messageId else "", w.finishedAt)]
            else if outcome.Failure? && !w.dlqFails && !w.deadFails
            then s.rows[me.msg.id := DeadRow(mine, w.error, w.finishedAt)]
            else s.rows
  }

  lemma LastWrites(cfg: Config, s: State, wid: nat, w: WorkerPool.JobWorld, outcome: Delivery.Delivered)
    returns (steps: seq<Step>, t: State)
    requires Working(s, wid) && s.workers[wid].phase == EndPhase(outcome) && w.finishedAt <= s.clock
    ensures Reaches(cfg, s, steps, t) && Claimless(steps) && Finished(s, t, wid, w, outcome)
  {
    if !outcome.Failure? {
      var step := if w.sentFails then Crash(wid)
                  else MarkSent(wid, if outcome.Success? then outcome.messageId else "", w.finishedAt);
      ReachOne(cfg, s, step);
      steps, t := [step], Apply(cfg, s, step);
    } else if w.dlqFails {
      var step := DeadLetter(wid, false, {});
      ReachOne(cfg, s, step);
      steps, t := [step], Apply(cfg, s, step);
    } else {
      steps, t := LetterRuns(cfg, s, wid, w, outcome);
    }
  }

  lemma LetterRuns(cfg: Config, s: State, wid: nat, w: WorkerPool.JobWorld, outcome: Delivery.Delivered)
    returns (steps: seq<Step>, t: State)
    requires Working(s, wid) && s.workers[wid].phase == Failed && w.finishedAt <= s.clock
    requires outcome.Failure? && !w.dlqFails
    ensures Reaches(cfg, s, steps, t) && Claimless(steps) && Finished(s, t, wid, w, outcome)
  {
    var letter := DeadLetter(wid, true, {Envelope(s.workers[wid])});
    ReachOne(cfg, s, letter);
    var mid := Apply(cfg, s, letter);
    var step := if w.deadFails then Crash(wid) else MarkDead(wid, w.error, w.finishedAt);
    ReachOne(cfg, mid, step);
    t := Apply(cfg, mid, step);
    hide Reaches;
    ReachOn(cfg, s, [letter], mid, [step], t);
    steps := [letter] + [step];
    assert mid.workers - {wid} == s.workers - {wid};
  }

  lemma FinishRuns(cfg: Config, s: State, wid: nat, w: WorkerPool.JobWorld, outcome: Delivery.Delivered)
    returns (steps: seq<Step>, t: State)
    requires Working(s, wid) && s.workers[wid].phase == EndPhase(outcome)
    ensures Reaches(cfg, s, steps, t) && Claimless(steps) && Finished(s, t, wid, w, outcome)
  {
    var mid := Pause(cfg, s, wid, Later(s.clock, w.finishedAt) - s.clock);
    hide Reaches;
    var write, last := LastWrites(cfg, mid, wid, w, outcome);
    ReachOn(cfg, s, [Advance(mid.clock)], mid, write, last);
    steps, t := [Advance(mid.clock)] + write, last;
  }

  /** What one job leaves behind, from the table to the counts. */
  ghost predicate Processed(cfg: Config, s: State, t: State, pool: Channel, j: WorkerPool.Job, w: WorkerPool.JobWorld,
    claimed: bool, n: nat)
  {
    var id := j.msg.id;
    var outcome := if claimed && !w.waitFails then Some(Delivery.Verdict(w.delivery, cfg.maxAttempts, n)) else None;
    && t.rows == WorkerPool.RowsAfter(s.rows, id, w, claimed, outcome) && t.workers == s.workers && t.txs == s.txs
    && t.requests == s.requests && t.published == s.published
    && t.dlq == s.dlq + (if outcome.Some? && outcome.value.Failure? && !w.dlqFails
                         then {Record(DlqTopic(pool), j.msg)} else {})
    && t.hist.Keys == s.hist.Keys
    && forall x | x in s.hist :: t.hist[x] ==
         if x != id || !claimed then s.hist[x]
         else s.hist[x].(claims := s.hist[x].claims + 1,
                         sends := s.hist[x].sends + (if outcome.Some? then n else 0),
                         accepts := s.hist[x].accepts + (if outcome.Some? && outcome.value.Success? then 1 else 0),
                         abandons := s.hist[x].abandons
                           + if outcome.None? || Unwritten(w, outcome.value) then 1 else 0)
  }

  /** When it is done: after the claim and all its Sends and pauses. */
  ghost function DoneAt(cfg: Config, s: State, w: WorkerPool.JobWorld, claimed: bool, n: nat): Time {
    var from := Later(s.clock, w.claimedAt);
    var pauses := Delivery.Pauses(w.delivery, cfg.maxAttempts, n);
    if !claimed then s.clock else if w.waitFails then from
    else Later(from + Delivery.Elapsed(w.delivery, n, pauses), w.finishedAt)
  }

  /** The claim, once the clock has come to it. */
  lemma ClaimRuns(cfg: Config, s: State, wid: nat, pool: Channel, j: WorkerPool.Job, w: WorkerPool.JobWorld)
    returns (steps: seq<Step>, t: State)
    requires wid !in s.workers && s.hist.Keys == s.rows.Keys && !Locked(s.txs, j.msg.id)
    requires Record(TopicFor(pool, j.priority), j.msg) in s.published
    requires j.msg.id in s.rows && Claimable(s.rows[j.msg.id].status)
    ensures Reaches(cfg, s, steps, t) && ClaimsAt(steps, w.claimedAt)
    ensures t == DoClaim(s.(clock := Later(s.clock, w.claimedAt)), wid, pool, j.msg, w.claimedAt)
  {
    var wait, claim := Advance(Later(s.clock, w.claimedAt)), Claim(wid, pool, j.priority, j.msg, w.claimedAt);
    ReachOne(cfg, s, wait);
    var mid := Apply(cfg, s, wait);
    assert Enabled(cfg, mid, claim);
    ReachOne(cfg, mid, claim);
    t := Apply(cfg, mid, claim);
    hide Reaches;
    ReachOn(cfg, s, [wait], mid, [claim], t);
    steps := [wait] + [claim];
  }

  /** What the holder of a fresh claim leaves behind. */
  ghost predicate Worked(cfg: Config, s: State, t: State, wid: nat, w: WorkerPool.JobWorld, n: nat) {
    && Working(s, wid) && t.workers == s.workers - {wid} && t.txs == s.txs
    && t.requests == s.requests && t.published == s.published
    && var me, outcome := s.workers[wid], Delivery.Verdict(w.delivery, cfg.maxAttempts, n);
       if w.waitFails then
         && t.rows == s.rows && t.dlq == s.dlq && t.clock == s.clock
         && t.hist == s.hist[me.msg.id := s.hist[me.msg.id].(abandons := s.hist[me.msg.id].abandons + 1)]
       else
         && t.clock ==
              Later(s.clock + Delivery.Elapsed(w.delivery, n, Delivery.Pauses(w.delivery, cfg.maxAttempts, n)),
                  w.finishedAt)
         && t.hist == s.hist[me.msg.id := s.hist[me.msg.id].(
              sends := s.hist[me.msg.id].sends + n,
              accepts := s.hist[me.msg.id].accepts + (if outcome.Success? then 1 else 0),
              abandons := s.hist[me.msg.id].abandons + if Unwritten(w, outcome) then 1 else 0)]
         && t.dlq == s.dlq + (if outcome.Failure? && !w.dlqFails then {Envelope(me)} else {})
         && t.rows ==
              if !outcome.Failure? && !w.sentFails
              then s.rows[me.msg.id := SentRow(Mine(s, wid), if outcome.Success?
                  then outcome.messageId else "", w.finishedAt)]
              else if outcome.Failure? && !w.dlqFails && !w.deadFails
              then s.rows[me.msg.id := DeadRow(Mine(s, wid), w.error, w.finishedAt)]
              else s.rows
  }

  lemma AfterClaim(cfg: Config, s: State, wid: nat, w: WorkerPool.JobWorld, n: nat) returns (steps: seq<Step>, t: State)
    requires Working(s, wid) && s.workers[wid].phase == Waiting
    requires Delivery.Makes(w.delivery, cfg.maxAttempts, n) && Durations(w.delivery)
    ensures Reaches(cfg, s, steps, t) && Claimless(steps) && Worked(cfg, s, t, wid, w, n)
  {
    if w.waitFails {
      steps, t := [Crash(wid)], Apply(cfg, s, Crash(wid));
      ReachOne(cfg, s, Crash(wid));
    } else {
      hide Reaches, Finished, Delivers, Worked;
      var outcome := Delivery.Verdict(w.delivery, cfg.maxAttempts, n);
      var from := s.clock + Delivery.Elapsed(w.delivery, n, Delivery.Pauses(w.delivery, cfg.maxAttempts, n));
      var accepts := if outcome.Success? then 1 else 0;
      var admit, admitted := OneAction(cfg, s, wid, 0, Admit);
      DeliversAt(s, admitted, wid, Delivering(0), s.clock, 0, 0);
      var deliver, done := DeliverRuns(cfg, admitted, wid, w.delivery, n);
      DeliversOn(s, admitted, done, wid, Delivering(0), s.clock, 0, 0, EndPhase(outcome), from, n, accepts);
      DeliversAt(s, done, wid, EndPhase(outcome), from, n, accepts);
      var finish, last := FinishRuns(cfg, done, wid, w, outcome);
      ReachOn(cfg, s, admit, admitted, deliver, done);
      ReachOn(cfg, s, admit + deliver, done, finish, last);
      steps, t := admit + deliver + finish, last;
      DeliveredThenFinished(cfg, s, done, t, wid, w, n);
    }
  }

  lemma DeliveredThenFinished(cfg: Config, s: State, done: State, t: State, wid: nat, w: WorkerPool.JobWorld, n: nat)
    requires !w.waitFails
    requires var outcome := Delivery.Verdict(w.delivery, cfg.maxAttempts, n);
             var from := s.clock + Delivery.Elapsed(w.delivery, n, Delivery.Pauses(w.delivery, cfg.maxAttempts, n));
             && Delivers(s, done, wid, EndPhase(outcome), from, n, if outcome.Success? then 1 else 0)
             && Finished(done, t, wid, w, outcome)
    ensures Worked(cfg, s, t, wid, w, n)
  {
    assert done.workers - {wid} == s.workers - {wid};
  }

  /** The claim and what followed it, taken together. */
  lemma JobIsProcessed(cfg: Config, s: State, t: State, wid: nat, pool: Channel, j: WorkerPool.Job,
      w: WorkerPool.JobWorld, n: nat)
    requires wid !in s.workers && s.hist.Keys == s.rows.Keys && j.msg.id in s.rows
    requires Worked(cfg, DoClaim(s.(clock := Later(s.clock, w.claimedAt)), wid, pool, j.msg, w.claimedAt), t, wid, w, n)
    ensures Processed(cfg, s, t, pool, j, w, true, n) && t.clock == DoneAt(cfg, s, w, true, n)
  {
    var mid := DoClaim(s.(clock := Later(s.clock, w.claimedAt)), wid, pool, j.msg, w.claimedAt);
    assert mid.workers - {wid} == s.workers;
  }

  // ----- The time it takes -----

  predicate ClaimsAt(steps: seq<Step>, stamp: Time) { forall x | x in steps && x.Claim? :: x.stamp == stamp }

  /** The clock never runs back, so a claim that is within its limit at the end was so all along. */
  lemma {:induction false} EndsInTime(cfg: Config, s: State, steps: seq<Step>, limit: Time)
    requires Valid(cfg, s, steps) && Timely(s.(clock := Run(cfg, s, steps).clock), Lifetime(limit))
    requires forall x | x in steps && x.Claim? :: Run(cfg, s, steps).clock <= x.stamp + limit
    ensures s.clock <= Run(cfg, s, steps).clock && TimelyRun(cfg, s, steps, Lifetime(limit))
    decreases |steps|
  {
    hide Enabled, Apply;
    if steps != [] {
      var next, end := Apply(cfg, s, steps[0]), Run(cfg, s, steps).clock;
      StepKeepsClaims(cfg, s, steps[0]);
      assert steps[0] in steps && forall x | x in steps[1..] :: x in steps;
      EndsInTime(cfg, next, steps[1..], limit);
    }
  }

  /** A job whose Sends and pauses keep their bounds, with the delays around them within the
      overhead, is done within the worst case plus the overhead of its claim. */
  lemma JobFits(cfg: Config, s: State, w: WorkerPool.JobWorld, n: nat, timeout: Time, backoff: Time, overhead: Time)
    requires cfg.maxAttempts >= 1 && !w.waitFails && Delivery.Makes(w.delivery, cfg.maxAttempts, n)
    requires Delivery.Bounded(w.delivery, timeout, backoff)
    requires var from := Later(s.clock, w.claimedAt);
             var sent := from + Delivery.Elapsed(w.delivery, n, Delivery.Pauses(w.delivery, cfg.maxAttempts, n));
             (from - w.claimedAt) + (DoneAt(cfg, s, w, true, n) - sent) <= overhead
    ensures DoneAt(cfg, s, w, true, n) <= w.claimedAt + Delivery.WorstCase(timeout, backoff, cfg.maxAttempts) + overhead
  {
    Delivery.DeliveryFits(w.delivery, timeout, backoff, cfg.maxAttempts, n,
        Delivery.Pauses(w.delivery, cfg.maxAttempts, n));
  }

  lemma StepKeepsClaims(cfg: Config, s: State, step: Step)
    requires Enabled(cfg, s, step)
    ensures var t := Apply(cfg, s, step);
            && s.clock <= t.clock
            && forall w | w in t.workers ::
                 || (w in s.workers && t.workers[w].claimedAt == s.workers[w].claimedAt)
                 || (step.Claim? && t.workers[w].claimedAt == step.stamp)
  {
  }

  lemma ReachesIsRun(cfg: Config, s: State, steps: seq<Step>, t: State)
    requires Reaches(cfg, s, steps, t)
    ensures Valid(cfg, s, steps) && Run(cfg, s, steps) == t
  {
  }

  /** One job from claim to outcome, whatever else is going on: the protocol can take the same way
      in the same time, and leaves the table, the dead letters and the counts that process leaves.
      Nobody's claim outlives a limit on the way that it does not outlive at the end. */
  lemma ProcessRefinesProtocol(cfg: Config, s: State, wid: nat, pool: Channel, j: WorkerPool.Job,
      w: WorkerPool.JobWorld,
      claimed: bool, n: nat)
    returns (steps: seq<Step>, t: State)
    requires wid !in s.workers && s.hist.Keys == s.rows.Keys
    requires Record(TopicFor(pool, j.priority), j.msg) in s.published
    requires claimed <==> !w.claimFails && j.msg.id in s.rows && s.rows[j.msg.id].status in {Queued, Pending}
    requires claimed ==> !Locked(s.txs, j.msg.id)
    requires Delivery.Makes(w.delivery, cfg.maxAttempts, n) && Durations(w.delivery)
    ensures Valid(cfg, s, steps) && Run(cfg, s, steps) == t
    ensures t.clock == DoneAt(cfg, s, w, claimed, n)
    ensures var id := j.msg.id;
            var outcome := if claimed && !w.waitFails
                           then Some(Delivery.Verdict(w.delivery, cfg.maxAttempts, n)) else None;
            // the table is the one the pool's process method leaves, and so are the dead letters
            && t.rows == WorkerPool.RowsAfter(s.rows, id, w, claimed, outcome)
            && t.dlq == s.dlq + (if outcome.Some? && outcome.value.Failure? && !w.dlqFails
                                 then {Record(DlqTopic(pool), j.msg)} else {})
            // the counters moved with it
            && t.hist.Keys == s.hist.Keys && (forall x | x in s.hist && x != id :: t.hist[x] == s.hist[x])
            && (!claimed ==> t.hist == s.hist)
            && (claimed ==>
                  && t.hist[id].claims == s.hist[id].claims + 1 && t.hist[id].reaps == s.hist[id].reaps
                  && t.hist[id].sends == s.hist[id].sends + (if outcome.Some? then n else 0)
                  && t.hist[id].accepts ==
                       s.hist[id].accepts + (if outcome.Some? && outcome.value.Success? then 1 else 0)
                  && t.hist[id].abandons == s.hist[id].abandons +
                       (if outcome.None? || (if outcome.value.Failure? then w.dlqFails || w.deadFails else w.sentFails)
                        then 1 else 0))
            // and nothing else did
            && t.workers == s.workers && t.txs == s.txs && t.requests == s.requests && t.published == s.published
    ensures forall limit |
              (claimed ==> t.clock <= w.claimedAt + limit) && Timely(s.(clock := t.clock), Lifetime(limit)) ::
              TimelyRun(cfg, s, steps, Lifetime(limit))
  {
    steps, t := [], s;
    if claimed {
      var claim, s2 := ClaimRuns(cfg, s, wid, pool, j, w);
      hide Reaches, Processed, Worked;
      var rest, last := AfterClaim(cfg, s2, wid, w, n);
      ReachOn(cfg, s, claim, s2, rest, last);
      steps, t := claim + rest, last;
      JobIsProcessed(cfg, s, t, wid, pool, j, w, n);
    }
    ReachesIsRun(cfg, s, steps, t);
    hide Valid, Run, Processed, DoneAt;
    forall limit | (claimed ==> t.clock <= w.claimedAt + limit) && Timely(s.(clock := t.clock), Lifetime(limit))
      ensures TimelyRun(cfg, s, steps, Lifetime(limit))
    {
      EndsInTime(cfg, s, steps, limit);
    }
  }

  /** The provider is called for what is stored: in every reachable state the message a pool fetches
      carries its row's recipient, channel and text, and the channel is the pool's own. */
  lemma JobCarriesRow(cfg: Config, s: State, pool: Channel, j: WorkerPool.Job)
    requires Reachable(cfg, s) && Record(TopicFor(pool, j.priority), j.msg) in s.published
    ensures j.msg.id in s.rows
    ensures var d, call := s.rows[j.msg.id].draft, WorkerPool.RequestOf(j.msg);
            && call.to == j.msg.recipient == d.recipient && call.content == j.msg.content == d.content
            && call.channel == j.msg.channel == d.channel == pool
            && j.msg.priority == d.priority == j.priority && j.msg.createdAt == d.createdAt
  {
    Preservation.ReachableInv(cfg, s);
    Preservation.FetchedIsGenuine(s, pool, j.priority, j.msg);
  }

  // ----- A poller's batch -----

  /** One batch of a poller, as DispatchDue and ReapStuck run it among any other transactions: the
      protocol can select, publish and commit (or roll back) to the same table. */
  lemma PollRefinesProtocol(cfg: Config, s: State, tid: nat, reap: bool, now: Time, stamp: Time, batch: seq<Row>,
      ok: bool, written: set<Id>)
    returns (steps: seq<Step>, t: State)
    requires tid !in s.txs && now <= stamp <= s.clock
    requires IsBatch(if reap then Reap(cfg.pendingAfter, cfg.inflightAfter) else Dispatch, s.rows, LockedIds(s), now,
                     if reap then cfg.reapLimit else cfg.dispatchLimit, batch)
    requires if ok then written == Ids(batch) else written <= Ids(batch)
    ensures Valid(cfg, s, steps) && Run(cfg, s, steps) == t && t.txs == s.txs
    ensures t.rows == if ok then Requeue(s.rows, Ids(batch), stamp) else s.rows
    ensures t.published == s.published + RowRecords(s.rows, written)
  {
    var ids := Ids(batch);
    BatchFits(KindOf(cfg, reap), s.rows, LockedIds(s), now, LimitOf(cfg, reap), batch);
    hide IsBatch, Ids;
    if ids == {} {
      steps, t := [], s;
      assert Requeue(s.rows, {}, stamp) == s.rows;
    } else {
      var select, republish := Select(tid, reap, now, stamp, ids), Republish(tid, ok, written);
      SelectOpens(cfg, s, tid, reap, now, stamp, ids);
      hide Enabled, Apply;
      var s1 := Apply(cfg, s, select);
      RepublishWrites(cfg, s, s1, tid, reap, stamp, ids, ok, written);
      var s2 := Apply(cfg, s1, republish);
      ReachOne(cfg, s, select);
      ReachOne(cfg, s1, republish);
      ReachOn(cfg, s, [select], s1, [republish], s2);
      steps, t := [select] + [republish], s2;
      if ok {
        CommitRequeues(cfg, s, s2, tid, ids, stamp);
        t := Apply(cfg, s2, Commit(tid));
        ReachOne(cfg, s2, Commit(tid));
        ReachOn(cfg, s, [select] + [republish], s2, [Commit(tid)], t);
        steps := [select] + [republish] + [Commit(tid)];
      }
    }
  }

  /** The transaction a poller opens over these rows. */
  ghost function Opened(cfg: Config, s: State, reap: bool, stamp: Time, ids: set<Id>): Tx
    requires ids <= s.rows.Keys
  {
    Tx(KindOf(cfg, reap), map id | id in ids :: s.rows[id], stamp, false)
  }

  lemma SelectOpens(cfg: Config, s: State, tid: nat, reap: bool, now: Time, stamp: Time, ids: set<Id>)
    requires tid !in s.txs && now <= stamp <= s.clock && ids != {} && |ids| <= LimitOf(cfg, reap)
    requires ids <= EligibleIds(KindOf(cfg, reap), s.rows, LockedIds(s), now)
    ensures ids <= s.rows.Keys
    ensures var select := Select(tid, reap, now, stamp, ids);
            && Enabled(cfg, s, select)
            && Apply(cfg, s, select) == s.(txs := s.txs[tid := Opened(cfg, s, reap, stamp, ids)])
  {
  }

  lemma RepublishWrites(cfg: Config, s: State, mid: State, tid: nat, reap: bool, stamp: Time, ids: set<Id>,
      ok: bool, written: set<Id>)
    requires tid !in s.txs && ids <= s.rows.Keys && (if ok then written == ids else written <= ids)
    requires mid == s.(txs := s.txs[tid := Opened(cfg, s, reap, stamp, ids)])
    ensures Enabled(cfg, mid, Republish(tid, ok, written))
    ensures var t := Apply(cfg, mid, Republish(tid, ok, written));
            && t.rows == s.rows && t.published == s.published + RowRecords(s.rows, written)
            && if !ok then t.txs == s.txs
               else tid in t.txs && t.txs - {tid} == s.txs && t.txs[tid].published
                    && t.txs[tid].stamp == stamp && t.txs[tid].picked.Keys == ids
  {
    assert RowRecords(mid.txs[tid].picked, written) == RowRecords(s.rows, written);
  }

  lemma CommitRequeues(cfg: Config, s: State, mid: State, tid: nat, ids: set<Id>, stamp: Time)
    requires mid.rows == s.rows && tid in mid.txs && mid.txs - {tid} == s.txs && mid.txs[tid].published
    requires mid.txs[tid].stamp == stamp && mid.txs[tid].picked.Keys == ids
    ensures Enabled(cfg, mid, Commit(tid))
    ensures var t := Apply(cfg, mid, Commit(tid));
            t.rows == Requeue(s.rows, ids, stamp) && t.txs == s.txs && t.published == mid.published
  {
  }
}
