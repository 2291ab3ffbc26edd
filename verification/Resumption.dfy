/** From every reachable state there is a fair schedule. */
module Resumption {
  import opened Domain
  import opened Table
  import opened Protocol
  import opened Invariants
  import opened Preservation
  import opened Recovery
  import opened Liveness

  // Open transactions commit, live workers finish what they hold, and then rounds of waiting,
  // dispatching, reaping and delivering finish the rest; from there on only time passes.

  // ----- Where a worker can stand -----

  /** There is a Send left to make. */
  predicate Fits(cfg: Config, w: Worker) {
    w.phase.Delivering? ==> w.phase.sends == 0 || w.phase.sends < cfg.maxAttempts
  }

  ghost predicate AllFit(cfg: Config, s: State) { forall w | w in s.workers :: Fits(cfg, s.workers[w]) }

  lemma StepKeepsFit(cfg: Config, s: State, step: Step)
    requires Enabled(cfg, s, step) && AllFit(cfg, s)
    ensures AllFit(cfg, Apply(cfg, s, step))
  {
    hide Eligible, RecordOf, RowRecords, Locked, InsertAll, FreshIds;
  }

  lemma {:induction false} RunKeepsFit(cfg: Config, s: State, steps: seq<Step>)
    requires AllFit(cfg, s) && Valid(cfg, s, steps)
    ensures AllFit(cfg, Run(cfg, s, steps))
    decreases |steps|
  {
    hide AllFit, Enabled, Apply;
    if steps != [] {
      StepKeepsFit(cfg, s, steps[0]);
      RunKeepsFit(cfg, Apply(cfg, s, steps[0]), steps[1..]);
    }
  }

  /** Every live worker has its row and a next step. */
  ghost predicate Able(cfg: Config, s: State) {
    forall w | w in s.workers :: HasWorker(s, w) && Fits(cfg, s.workers[w])
  }

  lemma ReachableIsAble(cfg: Config, s: State)
    requires Reachable(cfg, s)
    ensures Able(cfg, s) && Sound(s)
  {
    ReachableInv(cfg, s);
    ReachableIsSound(cfg, s);
    WorkersHaveRows(cfg, s);
    hide Inv, Enabled, Apply;
    var steps :| Valid(cfg, INIT, steps) && Run(cfg, INIT, steps) == s;
    RunKeepsFit(cfg, INIT, steps);
  }

  lemma WorkersHaveRows(cfg: Config, s: State)
    requires Inv(cfg, s)
    ensures forall w | w in s.workers :: HasWorker(s, w)
  {
    hide Keyed, Locks, Picks, Records, Envelopes, Announced, Holders, Asked, Answered, EarnedRows, EarnedPhases,
      WrittenOnce;
  }

  // ----- Each worker finishes -----

  /** The worker is gone, and its row is final. */
  ghost predicate DoneBy(s: State, t: State, wid: nat) {
    && HasWorker(s, wid) && t.workers == s.workers - {wid} && t.txs == s.txs && t.hist.Keys == s.hist.Keys
    && var id := s.workers[wid].msg.id;
       && id in t.rows && t.rows == s.rows[id := t.rows[id]]
       && t.rows[id].draft == s.rows[id].draft && Terminal(t.rows[id].status)
  }

  lemma LeavingIsSound(s: State, t: State, wid: nat)
    requires Sound(s) && s.txs == map[] && DoneBy(s, t, wid)
    ensures Sound(t) && t.rows.Keys == s.rows.Keys
  {
  }

  lemma SendEnds(cfg: Config, s: State, wid: nat, k: nat) returns (steps: seq<Step>, t: State)
    requires HasWorker(s, wid) && Sending(cfg, s, s.workers[wid].msg.id, wid, k)
    ensures Leads(cfg, s, steps, t) && DoneBy(s, t, wid)
  {
    hide Leads;
    steps, t := Accepting(cfg, s, s.workers[wid].msg.id, wid, k);
  }

  lemma AdmissionLeads(cfg: Config, s: State, wid: nat) returns (t: State)
    requires HasWorker(s, wid) && s.txs == map[] && cfg.maxAttempts >= 1 && s.workers[wid].phase.Waiting?
    ensures Leads(cfg, s, [Deliver(wid, Admit)], t) && Sending(cfg, t, s.workers[wid].msg.id, wid, 0)
    ensures t == s.(workers := t.workers, hist := t.hist) && t.hist.Keys == s.hist.Keys
    ensures t.workers - {wid} == s.workers - {wid}
  {
    var admit := Deliver(wid, Admit);
    assert Enabled(cfg, s, admit) && Smooth(cfg, s, admit);
    t := Apply(cfg, s, admit);
    LeadsOne(cfg, s, admit);
  }

  lemma WaitingEnds(cfg: Config, s: State, wid: nat) returns (steps: seq<Step>, t: State)
    requires HasWorker(s, wid) && s.txs == map[] && cfg.maxAttempts >= 1 && s.workers[wid].phase.Waiting?
    ensures Leads(cfg, s, steps, t) && DoneBy(s, t, wid)
  {
    hide Leads;
    var mid := AdmissionLeads(cfg, s, wid);
    var rest, last := SendEnds(cfg, mid, wid, 0);
    LeadsOn(cfg, s, [Deliver(wid, Admit)], mid, rest, last);
    steps, t := [Deliver(wid, Admit)] + rest, last;
  }

  /** The last write is all that is left. */
  lemma WriteEnds(cfg: Config, s: State, wid: nat) returns (steps: seq<Step>, t: State)
    requires HasWorker(s, wid) && s.txs == map[]
    requires s.workers[wid].phase.Accepted? || s.workers[wid].phase.DeadLettered?
    ensures Leads(cfg, s, steps, t) && DoneBy(s, t, wid)
  {
    var step := if s.workers[wid].phase.Accepted? then MarkSent(wid, "", s.clock) else MarkDead(wid, "", s.clock);
    assert Enabled(cfg, s, step) && Smooth(cfg, s, step);
    t := Apply(cfg, s, step);
    steps := [step];
    hide Enabled, Apply, Leads;
    LeadsOne(cfg, s, step);
  }

  lemma LetterLeads(cfg: Config, s: State, wid: nat) returns (step: Step, t: State)
    requires HasWorker(s, wid) && s.txs == map[] && s.workers[wid].phase.Failed?
    ensures Leads(cfg, s, [step], t) && wid in t.workers && t.workers[wid].phase.DeadLettered?
    ensures t.workers[wid].msg == s.workers[wid].msg && t == s.(workers := t.workers, dlq := t.dlq)
    ensures t.workers - {wid} == s.workers - {wid}
  {
    step := DeadLetter(wid, true, {Envelope(s.workers[wid])});
    assert Enabled(cfg, s, step) && Smooth(cfg, s, step);
    t := Apply(cfg, s, step);
    LeadsOne(cfg, s, step);
  }

  lemma FailureEnds(cfg: Config, s: State, wid: nat) returns (steps: seq<Step>, t: State)
    requires HasWorker(s, wid) && s.txs == map[] && s.workers[wid].phase.Failed?
    ensures Leads(cfg, s, steps, t) && DoneBy(s, t, wid)
  {
    hide Leads;
    var letter, mid := LetterLeads(cfg, s, wid);
    var rest, last := WriteEnds(cfg, mid, wid);
    LeadsOn(cfg, s, [letter], mid, rest, last);
    steps, t := [letter] + rest, last;
  }

  lemma WorkerEnds(cfg: Config, s: State, wid: nat) returns (steps: seq<Step>, t: State)
    requires HasWorker(s, wid) && s.txs == map[] && cfg.maxAttempts >= 1 && Fits(cfg, s.workers[wid])
    ensures Leads(cfg, s, steps, t) && DoneBy(s, t, wid)
  {
    hide Leads, DoneBy;
    match s.workers[wid].phase
    case Waiting => steps, t := WaitingEnds(cfg, s, wid);
    case Delivering(k) => steps, t := SendEnds(cfg, s, wid, k);
    case Failed => steps, t := FailureEnds(cfg, s, wid);
    case _ => steps, t := WriteEnds(cfg, s, wid);
  }

  lemma {:induction false} WorkersEnd(cfg: Config, s: State) returns (steps: seq<Step>, t: State)
    requires Sound(s) && s.txs == map[] && cfg.maxAttempts >= 1 && Able(cfg, s)
    ensures Leads(cfg, s, steps, t) && Sound(t) && t.txs == map[] && t.workers == map[]
    decreases s.workers.Keys
  {
    if s.workers == map[] {
      steps, t := [], s;
    } else {
      var wid :| wid in s.workers;
      var first, mid := WorkerEnds(cfg, s, wid);
      LeavingIsSound(s, mid, wid);
      assert mid.workers.Keys == s.workers.Keys - {wid};
      hide Leads, Sound;
      var rest, last := WorkersEnd(cfg, mid);
      LeadsOn(cfg, s, first, mid, rest, last);
      steps, t := first + rest, last;
    }
  }

  // ----- And everything finishes -----

  /** Without any failure from here on, everything can be finished and everyone be done. */
  lemma AllEnds(cfg: Config, s: State, answers: ProviderAnswers) returns (steps: seq<Step>, t: State)
    requires Reachable(cfg, s) && cfg.maxAttempts >= 1 && cfg.dispatchLimit >= 1 && cfg.reapLimit >= 1
    ensures Leads(cfg, s, steps, t) && t.workers == map[] && t.txs == map[] && Unfinished(t.rows) == {}
  {
    ReachableIsAble(cfg, s);
    hide Reachable, Leads, Sound;
    var a, s1 := CompleteAll(cfg, s, answers);
    KeysStay(cfg, s, s1, answers);
    hide Able, Progress;
    var b, s2 := WorkersEnd(cfg, s1);
    var c, s3 := FinishAll(cfg, s2, answers);
    LeadsOn(cfg, s, a, s1, b, s2);
    LeadsOn(cfg, s, a + b, s2, c, s3);
    steps, t := a + b + c, s3;
  }

  lemma KeysStay(cfg: Config, s: State, t: State, answers: ProviderAnswers)
    requires Able(cfg, s) && Sound(s) && Sound(t) && t.workers == s.workers && Progress(cfg, s.rows, t.rows, answers)
    ensures Able(cfg, t)
  {
  }

  /** Every reachable state, whatever has crashed and is unfinished in it, is the beginning of a fair
      schedule: one that finishes all of it. */
  lemma FairFromAnywhere(cfg: Config, s: State) returns (x: Schedule)
    requires Reachable(cfg, s) && cfg.maxAttempts >= 1 && cfg.dispatchLimit >= 1 && cfg.reapLimit >= 1
    ensures Proper(cfg, x) && Fair(cfg, x) && x.state(0) == s
  {
    hide Reachable, Leads, Proper, Fair;
    var steps, t := AllEnds(cfg, s, (id, k) => Accept);
    LeadsIsValid(cfg, s, steps, t);
    x := FinishedRunIsFair(cfg, s, steps);
  }
}
