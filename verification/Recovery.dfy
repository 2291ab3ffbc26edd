/** From every reachable state there is a way forward that finishes every notification. */
module Recovery {
  import opened Domain
  import opened Table
  import opened Protocol
  import opened Invariants
  import opened Preservation
  import opened Runs

  // Every message in Kafka may be lost, and every live worker and request may hang: time passes, both
  // pollers run their batches, and workers process what was republished.

  // ----- Continuations without failures -----

  /** Nothing crashes, rolls back or fails to publish, and nobody calls the API; a poller selects what
      its query returns; the provider may accept, reject or ask for a retry. */
  ghost predicate Smooth(cfg: Config, s: State, step: Step) {
    match step
    case Advance(_) => true
    case Select(_, reap, now, _, ids) =>
      exists batch ::
        IsBatch(KindOf(cfg, reap), s.rows, LockedIds(s), now, LimitOf(cfg, reap), batch) && ids == Ids(batch)
    case Republish(_, ok, _) => ok
    case Commit(_) => true
    case Claim(_, _, _, _, _) => true
    case Deliver(_, action) => action == Admit || action.Send?
    case DeadLetter(_, ok, _) => ok
    case MarkSent(_, _, _) => true
    case MarkDead(_, _, _) => true
    case _ => false
  }

  /** A run without failures from s to t. */
  ghost predicate Leads(cfg: Config, s: State, steps: seq<Step>, t: State)
    decreases |steps|
  {
    if steps == [] then s == t
    else Enabled(cfg, s, steps[0]) && Smooth(cfg, s, steps[0]) && Leads(cfg, Apply(cfg, s, steps[0]), steps[1..], t)
  }

  lemma LeadsOne(cfg: Config, s: State, step: Step)
    requires Enabled(cfg, s, step) && Smooth(cfg, s, step)
    ensures Leads(cfg, s, [step], Apply(cfg, s, step))
  {
    assert [step][1..] == [];
  }

  lemma {:induction false} LeadsOn(cfg: Config, s: State, a: seq<Step>, t: State, b: seq<Step>, u: State)
    requires Leads(cfg, s, a, t) && Leads(cfg, t, b, u)
    ensures Leads(cfg, s, a + b, u)
    decreases |a|
  {
    hide Enabled, Apply, Smooth;
    if a == [] {
      assert a + b == b;
    } else {
      LeadsOn(cfg, Apply(cfg, s, a[0]), a[1..], t, b, u);
      assert (a + b)[1..] == a[1..] + b;
    }
  }

  /** Such a run is a run of the protocol. */
  lemma {:induction false} LeadsIsValid(cfg: Config, s: State, steps: seq<Step>, t: State)
    requires Leads(cfg, s, steps, t)
    ensures Valid(cfg, s, steps) && Run(cfg, s, steps) == t
    decreases |steps|
  {
    hide Enabled, Apply, Smooth;
    if steps != [] { LeadsIsValid(cfg, Apply(cfg, s, steps[0]), steps[1..], t); }
  }

  lemma {:induction false} LeadsIsSmooth(cfg: Config, s: State, steps: seq<Step>, t: State)
    requires Leads(cfg, s, steps, t)
    ensures forall x | x in steps ::
              || x.Advance? || x.Select? || x.Commit? || x.Claim? || x.MarkSent? || x.MarkDead?
              || (x.Deliver? && (x.action.Admit? || x.action.Send?))
              || (x.Republish? && x.ok) || (x.DeadLetter? && x.ok)
    decreases |steps|
  {
    hide Enabled, Apply;
    if steps != [] {
      LeadsIsSmooth(cfg, Apply(cfg, s, steps[0]), steps[1..], t);
      assert steps == [steps[0]] + steps[1..];
    }
  }

  // ----- What recovery needs of a state: nothing about messages -----

  ghost predicate Sound(s: State) {
    && WellKeyed(s.rows) && s.hist.Keys == s.rows.Keys && Locks(s.rows, s.txs)
    && forall id | id in s.rows && s.rows[id].status == Scheduled :: s.rows[id].draft.scheduledAt.Some?
  }

  /** What the provider would answer to the k-th Send of a notification, counted from zero. */
  type ProviderAnswers = (Id, nat) -> Response

  /** How a delivery ends from its k-th Send on: the first answer that is not a retry decides, and
      running out of attempts is a failure. */
  function Ending(cfg: Config, answers: ProviderAnswers, id: Id, k: nat): (end: Status)
    ensures end == Sent || end == Dead
    decreases cfg.maxAttempts - k
  {
    if answers(id, k) == Accept then Sent
    else if answers(id, k) == Reject || k + 1 >= cfg.maxAttempts then Dead
    else Ending(cfg, answers, id, k + 1)
  }

  /** An acceptance ends it as sent, if nothing but retries came before and attempts were left. */
  lemma {:induction false} EndingIs(cfg: Config, answers: ProviderAnswers, id: Id, k: nat)
    requires cfg.maxAttempts >= 1
    ensures Ending(cfg, answers, id, k) == Sent <==>
              exists n: nat :: k <= n && (n < cfg.maxAttempts || n == k) && answers(id, n) == Accept
                               && forall m: nat | k <= m < n :: answers(id, m) == Retry
    decreases cfg.maxAttempts - k
  {
    if answers(id, k) == Retry && k + 1 < cfg.maxAttempts { EndingIs(cfg, answers, id, k + 1); }
  }

  /** Final rows stand, and a row that became final did so by the provider's verdict. */
  ghost predicate Progress(cfg: Config, rows: Rows, rows': Rows, answers: ProviderAnswers) {
    && SameDrafts(rows, rows') && rows'.Keys == rows.Keys
    && forall id | id in rows ::
         if Terminal(rows[id].status) then rows'[id] == rows[id]
         else !Terminal(rows'[id].status) || rows'[id].status == Ending(cfg, answers, id, 0)
  }

  ghost function Unfinished(rows: Rows): set<Id> { set id | id in rows && !Terminal(rows[id].status) }

  ghost function StillScheduled(rows: Rows): set<Id> { set id | id in rows && rows[id].status == Scheduled }

  // ----- Open transactions complete -----

  lemma CommitMoves(s: State, tid: nat)
    requires CanCommit(s, tid) && Holds(s.rows, s.txs[tid])
    ensures var t := DoCommit(s, tid);
            && t == s.(rows := t.rows, hist := t.hist, txs := s.txs - {tid})
            && t.rows.Keys == s.rows.Keys && t.hist.Keys == s.hist.Keys
            && forall id | id in s.rows ::
                 && t.rows[id].draft == s.rows[id].draft
                 && if id in s.txs[tid].picked then t.rows[id].status == Queued && !Terminal(s.rows[id].status)
                    else t.rows[id] == s.rows[id]
  {
  }

  lemma CommitEffect(cfg: Config, s: State, tid: nat, answers: ProviderAnswers)
    requires Sound(s) && CanCommit(s, tid)
    ensures var t := DoCommit(s, tid);
            && Sound(t) && Progress(cfg, s.rows, t.rows, answers)
            && t == s.(rows := t.rows, hist := t.hist, txs := s.txs - {tid})
            && forall id | id in s.rows ::
                 if id in s.txs[tid].picked then t.rows[id].status == Queued else t.rows[id] == s.rows[id]
  {
    PickedIsHeld(s.rows, s.txs, tid);
    CommitKeepsLocks(s, tid);
    CommitMoves(s, tid);
    var t := DoCommit(s, tid);
    RequeueIsSound(s, t, s.txs[tid].picked.Keys);
    RequeueProgresses(cfg, s.rows, t.rows, s.txs[tid].picked.Keys, answers);
    hide DoCommit, Locks, Holds, Sound, Progress;
  }

  lemma RequeueIsSound(s: State, t: State, ids: set<Id>)
    requires Sound(s) && Locks(t.rows, t.txs) && t.rows.Keys == s.rows.Keys && t.hist.Keys == s.hist.Keys
    requires forall id | id in s.rows :: t.rows[id].draft == s.rows[id].draft
    requires forall id | id in s.rows :: if id in ids then t.rows[id].status == Queued else t.rows[id] == s.rows[id]
    ensures Sound(t)
  {
    hide Locks;
  }

  lemma RequeueProgresses(cfg: Config, rows: Rows, rows': Rows, ids: set<Id>, answers: ProviderAnswers)
    requires rows'.Keys == rows.Keys && forall id | id in rows :: rows'[id].draft == rows[id].draft
    requires forall id | id in rows ::
               if id in ids then rows'[id].status == Queued && !Terminal(rows[id].status) else rows'[id] == rows[id]
    ensures Progress(cfg, rows, rows', answers)
  {
    hide Ending;
  }

  lemma RepublishEffect(s: State, tid: nat)
    requires Sound(s) && tid in s.txs && !s.txs[tid].published
    ensures CanRepublish(s, tid, true, s.txs[tid].picked.Keys)
    ensures var t := DoRepublish(s, tid, true, s.txs[tid].picked.Keys);
            && Sound(t) && t == s.(published := t.published, txs := s.txs[tid := s.txs[tid].(published := true)])
            && forall id | id in s.txs[tid].picked :: id in s.rows && RecordOf(s.rows[id].draft) in t.published
  {
    var tx := s.txs[tid];
    var t := DoRepublish(s, tid, true, tx.picked.Keys);
    assert Holds(s.rows, tx);
    forall x | x in t.txs ensures Holds(t.rows, t.txs[x]) { assert Holds(s.rows, s.txs[x]); }
    assert forall id | id in tx.picked :: RecordOf(tx.picked[id].draft) in RowRecords(tx.picked, tx.picked.Keys);
  }

  /** An open transaction publishes what it selected, unless it has already, and commits. */
  lemma Complete(cfg: Config, s: State, tid: nat, answers: ProviderAnswers) returns (steps: seq<Step>, t: State)
    requires Sound(s) && tid in s.txs
    ensures Leads(cfg, s, steps, t) && Sound(t) && Progress(cfg, s.rows, t.rows, answers)
    ensures t == s.(rows := t.rows, hist := t.hist, published := t.published, txs := s.txs - {tid})
    ensures forall id | id in s.rows ::
              if id in s.txs[tid].picked then t.rows[id].status == Queued else t.rows[id] == s.rows[id]
    ensures !s.txs[tid].published ==>
              forall id | id in s.txs[tid].picked :: id in s.rows && RecordOf(s.rows[id].draft) in t.published
  {
    hide DoCommit, DoRepublish, Sound, Progress, Holds;
    steps := [];
    var mid := s;
    if !s.txs[tid].published {
      RepublishEffect(s, tid);
      var republish := Republish(tid, true, s.txs[tid].picked.Keys);
      LeadsOne(cfg, s, republish);
      mid := Apply(cfg, s, republish);
      steps := [republish];
    }
    CommitEffect(cfg, mid, tid, answers);
    LeadsOne(cfg, mid, Commit(tid));
    t := Apply(cfg, mid, Commit(tid));
    LeadsOn(cfg, s, steps, mid, [Commit(tid)], t);
    steps := steps + [Commit(tid)];
    assert mid.txs - {tid} == s.txs - {tid};
  }

  lemma ProgressOn(cfg: Config, a: Rows, b: Rows, c: Rows, answers: ProviderAnswers)
    requires Progress(cfg, a, b, answers) && Progress(cfg, b, c, answers)
    ensures Progress(cfg, a, c, answers)
  {
  }

  lemma NothingHappens(cfg: Config, s: State, answers: ProviderAnswers)
    ensures Leads(cfg, s, [], s) && Progress(cfg, s.rows, s.rows, answers)
  {
  }

  lemma {:induction false} CompleteAll(cfg: Config, s: State, answers: ProviderAnswers)
    returns (steps: seq<Step>, t: State)
    requires Sound(s)
    ensures Leads(cfg, s, steps, t) && Sound(t) && t.txs == map[] && Progress(cfg, s.rows, t.rows, answers)
    ensures t.workers == s.workers
    decreases s.txs.Keys
  {
    hide Sound, Progress, Leads;
    if s.txs == map[] {
      steps, t := [], s;
      NothingHappens(cfg, s, answers);
    } else {
      var tid :| tid in s.txs;
      var first, mid := Complete(cfg, s, tid, answers);
      assert mid.txs.Keys == s.txs.Keys - {tid};
      var rest, last := CompleteAll(cfg, mid, answers);
      LeadsOn(cfg, s, first, mid, rest, last);
      ProgressOn(cfg, s.rows, mid.rows, last.rows, answers);
      steps, t := first + rest, last;
    }
  }

  // ----- One round of a poller -----

  lemma SelectedIsSound(cfg: Config, s: State, reap: bool, now: Time, ids: set<Id>)
    requires Sound(s) && s.txs == map[] && ids <= EligibleIds(KindOf(cfg, reap), s.rows, {}, now)
    ensures var t := DoSelect(cfg, s, 0, reap, s.clock, ids);
            && Sound(t) && t == s.(txs := t.txs)
            && t.txs.Keys == {0} && t.txs[0].picked.Keys == ids && !t.txs[0].published
  {
    var t := DoSelect(cfg, s, 0, reap, s.clock, ids);
    assert Holds(t.rows, t.txs[0]);
  }

  lemma SelectApplies(cfg: Config, s: State, reap: bool, ids: set<Id>)
    requires Enabled(cfg, s, Select(0, reap, s.clock, s.clock, ids)) && ids <= s.rows.Keys
    ensures Apply(cfg, s, Select(0, reap, s.clock, s.clock, ids)) == DoSelect(cfg, s, 0, reap, s.clock, ids)
  {
  }

  lemma SelectIsSmooth(cfg: Config, s: State, reap: bool, batch: seq<Row>)
    requires s.txs == map[] && batch != []
    requires IsBatch(KindOf(cfg, reap), s.rows, {}, s.clock, LimitOf(cfg, reap), batch)
    ensures var step := Select(0, reap, s.clock, s.clock, Ids(batch)); Enabled(cfg, s, step) && Smooth(cfg, s, step)
  {
    assert LockedIds(s) == {};
    hide IsBatch;
    BatchFits(KindOf(cfg, reap), s.rows, {}, s.clock, LimitOf(cfg, reap), batch);
    assert batch[0].draft.id in Ids(batch);
  }

  /** A tick's batch, with no transaction open: everything it selects is republished and queued. */
  lemma PollRound(cfg: Config, s: State, reap: bool, answers: ProviderAnswers)
    returns (steps: seq<Step>, t: State, ids: set<Id>)
    requires Sound(s) && s.txs == map[] && LimitOf(cfg, reap) >= 1
    requires EligibleIds(KindOf(cfg, reap), s.rows, {}, s.clock) != {}
    ensures Leads(cfg, s, steps, t) && Sound(t) && Progress(cfg, s.rows, t.rows, answers)
    ensures t == s.(rows := t.rows, hist := t.hist, published := t.published)
    ensures ids != {} && ids <= EligibleIds(KindOf(cfg, reap), s.rows, {}, s.clock)
    ensures forall id | id in s.rows :: if id in ids then t.rows[id].status == Queued else t.rows[id] == s.rows[id]
    ensures forall id | id in ids :: RecordOf(s.rows[id].draft) in t.published
  {
    assert WellKeyed(s.rows);
    hide Enabled, Apply, Smooth, Leads, Progress, IsBatch, Sound, Eligible, RecordOf;
    var batch := BatchExists(KindOf(cfg, reap), s.rows, {}, s.clock, LimitOf(cfg, reap));
    assert batch[0].draft.id in Ids(batch);
    BatchFits(KindOf(cfg, reap), s.rows, {}, s.clock, LimitOf(cfg, reap), batch);
    SelectIsSmooth(cfg, s, reap, batch);
    steps, t := FinishRound(cfg, s, reap, Ids(batch), answers);
    ids := Ids(batch);
  }

  lemma FinishRound(cfg: Config, s: State, reap: bool, ids: set<Id>, answers: ProviderAnswers)
    returns (steps: seq<Step>, t: State)
    requires Sound(s) && s.txs == map[] && ids <= EligibleIds(KindOf(cfg, reap), s.rows, {}, s.clock)
    requires var step := Select(0, reap, s.clock, s.clock, ids); Enabled(cfg, s, step) && Smooth(cfg, s, step)
    ensures Leads(cfg, s, steps, t) && Sound(t) && Progress(cfg, s.rows, t.rows, answers)
    ensures t == s.(rows := t.rows, hist := t.hist, published := t.published)
    ensures forall id | id in s.rows :: if id in ids then t.rows[id].status == Queued else t.rows[id] == s.rows[id]
    ensures forall id | id in ids :: id in s.rows && RecordOf(s.rows[id].draft) in t.published
  {
    hide Enabled, Apply, Smooth, Leads, Progress, Sound, Eligible, RecordOf, DoSelect;
    var select := Select(0, reap, s.clock, s.clock, ids);
    var mid := Apply(cfg, s, select);
    SelectApplies(cfg, s, reap, ids);
    SelectedIsSound(cfg, s, reap, s.clock, ids);
    LeadsOne(cfg, s, select);
    var rest, last := Complete(cfg, mid, 0, answers);
    LeadsOn(cfg, s, [select], mid, rest, last);
    steps, t := [select] + rest, last;
    assert mid.txs - {0} == map[];
  }

  // ----- One delivery -----

  lemma {:induction false} FreshNat(used: set<nat>) returns (n: nat)
    ensures forall x | x in used :: x < n
  {
    n := 0;
    if used != {} {
      var x :| x in used;
      var m := FreshNat(used - {x});
      assert forall y | y in used :: y == x || y in used - {x};
      n := if x < m then m else x + 1;
    }
  }

  /** A worker fetches the message, claims the row and waits for the limiter. */
  lemma ClaimEffect(cfg: Config, s: State, id: Id, wid: nat)
    requires Sound(s) && s.txs == map[] && wid !in s.workers
    requires id in s.rows && s.rows[id].status == Queued && RecordOf(s.rows[id].draft) in s.published
    ensures var d := s.rows[id].draft;
            var claim, admit := Claim(wid, d.channel, d.priority, MessageOf(d), s.clock), Deliver(wid, Admit);
            && Enabled(cfg, s, claim) && Enabled(cfg, Apply(cfg, s, claim), admit)
            && var t := Apply(cfg, Apply(cfg, s, claim), admit);
               && t == s.(rows := s.rows[id := ClaimedRow(s.rows[id], s.clock)], hist := t.hist,
                          workers := s.workers[wid := Worker(d.channel, MessageOf(d), Delivering(0), s.clock, s.clock,
                              0)])
               && t.hist.Keys == s.hist.Keys
  {
  }

  /** A worker is at its k-th Send and nothing is locked. */
  ghost predicate Sending(cfg: Config, s: State, id: Id, wid: nat, k: nat) {
    && s.txs == map[] && k < cfg.maxAttempts && wid in s.workers && id in s.rows && id in s.hist
    && s.workers[wid].msg.id == id && s.workers[wid].phase == Delivering(k)
  }

  /** The provider accepts and the worker marks the row sent. */
  lemma AcceptEffect(cfg: Config, s: State, id: Id, wid: nat, k: nat)
    requires Sending(cfg, s, id, wid, k)
    ensures var send, mark := Deliver(wid, Send(Accept)), MarkSent(wid, "", s.clock);
            && Enabled(cfg, s, send) && Enabled(cfg, Apply(cfg, s, send), mark)
            && var t := Apply(cfg, Apply(cfg, s, send), mark);
               && t == s.(rows := s.rows[id := SentRow(s.rows[id], "", s.clock)], hist := t.hist,
                          workers := s.workers - {wid})
               && t.hist.Keys == s.hist.Keys
  {
    var t := Apply(cfg, s, Deliver(wid, Send(Accept)));
    assert t.workers - {wid} == s.workers - {wid};
  }

  /** The provider rejects, or asks for a retry when no attempt is left; the worker dead-letters
      the message and marks the row dead. */
  lemma RejectEffect(cfg: Config, s: State, id: Id, wid: nat, k: nat, response: Response)
    requires Sending(cfg, s, id, wid, k) && (response == Reject || (response == Retry && k + 1 >= cfg.maxAttempts))
    ensures var send, letter, mark :=
              Deliver(wid, Send(response)), DeadLetter(wid, true, {Envelope(s.workers[wid])}), MarkDead(wid, "",
                  s.clock);
            && Enabled(cfg, s, send) && Enabled(cfg, Apply(cfg, s, send), letter)
            && Enabled(cfg, Apply(cfg, Apply(cfg, s, send), letter), mark)
            && var t := Apply(cfg, Apply(cfg, Apply(cfg, s, send), letter), mark);
               && t == s.(rows := s.rows[id := DeadRow(s.rows[id], "", s.clock)], hist := t.hist,
                          dlq := t.dlq, workers := s.workers - {wid})
               && t.hist.Keys == s.hist.Keys
  {
    var t := Apply(cfg, s, Deliver(wid, Send(response)));
    var u := Apply(cfg, t, DeadLetter(wid, true, {Envelope(s.workers[wid])}));
    assert t.workers - {wid} == s.workers - {wid} == u.workers - {wid};
  }

  /** The provider asks for a retry. */
  lemma RetryEffect(cfg: Config, s: State, id: Id, wid: nat, k: nat)
    requires Sending(cfg, s, id, wid, k) && k + 1 < cfg.maxAttempts
    ensures var send := Deliver(wid, Send(Retry));
            && Enabled(cfg, s, send) && Sending(cfg, Apply(cfg, s, send), id, wid, k + 1)
            && var t := Apply(cfg, s, send);
               && t == s.(workers := t.workers, hist := t.hist) && t.hist.Keys == s.hist.Keys
               && t.workers - {wid} == s.workers - {wid}
  {
  }

  lemma OneRowSettles(cfg: Config, s: State, t: State, id: Id, answers: ProviderAnswers)
    requires Sound(s) && s.txs == map[] && t.txs == map[] && t.hist.Keys == s.hist.Keys
    requires id in s.rows && !Terminal(s.rows[id].status) && id in t.rows && t.rows == s.rows[id := t.rows[id]]
    requires t.rows[id].draft == s.rows[id].draft && t.rows[id].status == Ending(cfg, answers, id, 0)
    ensures Sound(t) && Progress(cfg, s.rows, t.rows, answers)
  {
  }

  lemma Claiming(cfg: Config, s: State, id: Id, wid: nat) returns (steps: seq<Step>, t: State)
    requires Sound(s) && s.txs == map[] && wid !in s.workers && cfg.maxAttempts >= 1
    requires id in s.rows && s.rows[id].status == Queued && RecordOf(s.rows[id].draft) in s.published
    ensures Leads(cfg, s, steps, t) && Sending(cfg, t, id, wid, 0)
    ensures t.rows == s.rows[id := ClaimedRow(s.rows[id], s.clock)] && t.published == s.published
    ensures t.workers - {wid} == s.workers && t.hist.Keys == s.hist.Keys
  {
    var d := s.rows[id].draft;
    var claim, admit := Claim(wid, d.channel, d.priority, MessageOf(d), s.clock), Deliver(wid, Admit);
    ClaimEffect(cfg, s, id, wid);
    assert s.rows[id].draft.id == id;
    hide Enabled, Apply, Leads, RecordOf, Sound;
    var s1 := Apply(cfg, s, claim);
    t := Apply(cfg, s1, admit);
    LeadsOne(cfg, s, claim);
    LeadsOne(cfg, s1, admit);
    LeadsOn(cfg, s, [claim], s1, [admit], t);
    steps := [claim] + [admit];
  }

  /** One queued row whose message is in the log ends as the provider decides. */
  lemma DeliverOne(cfg: Config, s: State, id: Id, answers: ProviderAnswers) returns (steps: seq<Step>, t: State)
    requires Sound(s) && s.txs == map[] && cfg.maxAttempts >= 1
    requires id in s.rows && s.rows[id].status == Queued && RecordOf(s.rows[id].draft) in s.published
    ensures Leads(cfg, s, steps, t) && Sound(t) && t.txs == map[] && t.published == s.published
    ensures t.workers == s.workers
    ensures id in t.rows && t.rows == s.rows[id := t.rows[id]]
    ensures Progress(cfg, s.rows, t.rows, answers) && Terminal(t.rows[id].status)
  {
    assert id in s.hist && s.rows[id].draft.id == id;
    hide Enabled, Apply, Leads, RecordOf, Sound, Progress, DlqTopic, Ending;
    var wid := FreshNat(s.workers.Keys);
    var first, mid := Claiming(cfg, s, id, wid);
    var rest, last := Deciding(cfg, mid, id, wid, 0, answers);
    steps, t := first + rest, last;
    LeadsOn(cfg, s, first, mid, rest, t);
    hide Sending, MessageOf;
    assert t.rows == s.rows[id := t.rows[id]];
    assert t.workers == s.workers;
    OneRowSettles(cfg, s, t, id, answers);
  }

  /** The rest of a delivery: retries while the provider asks for them, then its decision. */
  lemma {:induction false} Deciding(cfg: Config, s: State, id: Id, wid: nat, k: nat, answers: ProviderAnswers)
    returns (steps: seq<Step>, t: State)
    requires Sending(cfg, s, id, wid, k)
    ensures Leads(cfg, s, steps, t) && t.hist.Keys == s.hist.Keys && id in t.rows
    ensures t.rows == s.rows[id := t.rows[id]] && t.txs == s.txs && t.published == s.published
    ensures t.workers == s.workers - {wid}
    ensures t.rows[id].draft == s.rows[id].draft && t.rows[id].status == Ending(cfg, answers, id, k)
    decreases cfg.maxAttempts - k
  {
    if answers(id, k) == Accept {
      hide Leads;
      steps, t := Accepting(cfg, s, id, wid, k);
    } else if answers(id, k) == Reject || k + 1 >= cfg.maxAttempts {
      hide Leads;
      steps, t := Rejecting(cfg, s, id, wid, k, answers(id, k));
    } else {
      RetryEffect(cfg, s, id, wid, k);
      hide Enabled, Apply, Leads;
      var send := Deliver(wid, Send(Retry));
      assert Smooth(cfg, s, send);
      LeadsOne(cfg, s, send);
      var rest, last := Deciding(cfg, Apply(cfg, s, send), id, wid, k + 1, answers);
      LeadsOn(cfg, s, [send], Apply(cfg, s, send), rest, last);
      steps, t := [send] + rest, last;
    }
  }

  lemma Accepting(cfg: Config, s: State, id: Id, wid: nat, k: nat) returns (steps: seq<Step>, t: State)
    requires Sending(cfg, s, id, wid, k)
    ensures Leads(cfg, s, steps, t) && t.hist.Keys == s.hist.Keys
    ensures t == s.(rows := s.rows[id := SentRow(s.rows[id], "", s.clock)], hist := t.hist,
        workers := s.workers - {wid})
  {
    AcceptEffect(cfg, s, id, wid, k);
    hide Enabled, Apply, Leads;
    var send, mark := Deliver(wid, Send(Accept)), MarkSent(wid, "", s.clock);
    var s1 := Apply(cfg, s, send);
    t := Apply(cfg, s1, mark);
    LeadsOne(cfg, s, send);
    LeadsOne(cfg, s1, mark);
    LeadsOn(cfg, s, [send], s1, [mark], t);
    steps := [send] + [mark];
  }

  lemma Rejecting(cfg: Config, s: State, id: Id, wid: nat, k: nat, response: Response)
    returns (steps: seq<Step>, t: State)
    requires Sending(cfg, s, id, wid, k) && (response == Reject || (response == Retry && k + 1 >= cfg.maxAttempts))
    ensures Leads(cfg, s, steps, t) && t.hist.Keys == s.hist.Keys
    ensures t == s.(rows := s.rows[id := DeadRow(s.rows[id], "", s.clock)], hist := t.hist,
                    dlq := t.dlq, workers := s.workers - {wid})
  {
    RejectEffect(cfg, s, id, wid, k, response);
    hide Enabled, Apply, Leads;
    var send, letter, mark :=
      Deliver(wid, Send(response)), DeadLetter(wid, true, {Envelope(s.workers[wid])}), MarkDead(wid, "", s.clock);
    var s1 := Apply(cfg, s, send);
    var s2 := Apply(cfg, s1, letter);
    t := Apply(cfg, s2, mark);
    LeadsOne(cfg, s, send);
    LeadsOne(cfg, s1, letter);
    LeadsOne(cfg, s2, mark);
    LeadsOn(cfg, s, [send], s1, [letter], s2);
    LeadsOn(cfg, s, [send] + [letter], s2, [mark], t);
    steps := [send] + [letter] + [mark];
  }

  /** These rows are queued and their messages are in the log. */
  ghost predicate Ready(s: State, ids: set<Id>) {
    forall id | id in ids :: id in s.rows && s.rows[id].status == Queued && RecordOf(s.rows[id].draft) in s.published
  }

  lemma OneIsReady(s: State, ids: set<Id>, id: Id)
    requires Ready(s, ids) && id in ids
    ensures id in s.rows && s.rows[id].status == Queued && RecordOf(s.rows[id].draft) in s.published
  {
  }

  lemma OthersStayReady(s: State, t: State, ids: set<Id>, id: Id)
    requires Ready(s, ids) && id in t.rows && t.rows == s.rows[id := t.rows[id]] && t.published == s.published
    ensures Ready(t, ids - {id})
  {
  }

  /** The workers process every republished message. */
  lemma {:induction false} DeliverAll(cfg: Config, s: State, ids: set<Id>, answers: ProviderAnswers)
    returns (steps: seq<Step>, t: State)
    requires Sound(s) && s.txs == map[] && cfg.maxAttempts >= 1 && Ready(s, ids)
    ensures Leads(cfg, s, steps, t) && Sound(t) && t.txs == map[] && Progress(cfg, s.rows, t.rows, answers)
    ensures t.workers == s.workers
    ensures forall id | id in ids :: id in t.rows && Terminal(t.rows[id].status)
    ensures forall id | id in s.rows && id !in ids :: t.rows[id] == s.rows[id]
    decreases ids
  {
    hide Sound, Leads, RecordOf, Progress, Ready;
    if ids == {} {
      steps, t := [], s;
      NothingHappens(cfg, s, answers);
    } else {
      var id :| id in ids;
      OneIsReady(s, ids, id);
      var first, mid := DeliverOne(cfg, s, id, answers);
      OthersStayReady(s, mid, ids, id);
      var rest, last := DeliverAll(cfg, mid, ids - {id}, answers);
      LeadsOn(cfg, s, first, mid, rest, last);
      ProgressOn(cfg, s.rows, mid.rows, last.rows, answers);
      steps, t := first + rest, last;
      assert t.rows[id] == mid.rows[id];
    }
  }

  // ----- Time passes -----

  /** A time by which every schedule is due and every lease and grace period has run out. */
  lemma {:induction false} Horizon(rows: Rows, ids: set<Id>, from: Time, wait: Time) returns (to: Time)
    requires ids <= rows.Keys
    ensures from <= to
    ensures forall id | id in ids :: rows[id].updatedAt + wait < to && DueBy(rows[id].draft, to)
  {
    to := from;
    if ids != {} {
      var id :| id in ids;
      assert forall x | x in ids :: x == id || x in ids - {id};
      var rest := Horizon(rows, ids - {id}, from, wait);
      var due := if rows[id].draft.scheduledAt.Some? then rows[id].draft.scheduledAt.value else rest;
      to := if rows[id].updatedAt + wait < rest then rest else rows[id].updatedAt + wait + 1;
      if to < due { to := due; }
    }
  }

  lemma WaitLongEnough(cfg: Config, s: State, reap: bool) returns (step: Step, t: State)
    requires Sound(s) && s.txs == map[]
    ensures Leads(cfg, s, [step], t) && Sound(t) && t == s.(clock := t.clock)
    ensures forall id | id in t.rows && Pickable(KindOf(cfg, reap), t.rows[id].status) ::
              id in EligibleIds(KindOf(cfg, reap), t.rows, {}, t.clock)
  {
    var wait := if cfg.pendingAfter < cfg.inflightAfter then cfg.inflightAfter else cfg.pendingAfter;
    var to := Horizon(s.rows, s.rows.Keys, s.clock, wait);
    step := Advance(to);
    LeadsOne(cfg, s, step);
    t := Apply(cfg, s, step);
  }

  // ----- All together -----

  /** After long enough the dispatcher has work, or else the reaper. */
  lemma WorkComes(cfg: Config, s: State) returns (reap: bool, wait: Step, t: State)
    requires Sound(s) && s.txs == map[] && Unfinished(s.rows) != {}
    ensures Leads(cfg, s, [wait], t) && Sound(t) && t == s.(clock := t.clock)
    ensures reap <==> StillScheduled(s.rows) == {}
    ensures EligibleIds(KindOf(cfg, reap), t.rows, {}, t.clock) != {}
  {
    hide Sound, Leads;
    reap := StillScheduled(s.rows) == {};
    wait, t := WaitLongEnough(cfg, s, reap);
    var some: Id :| if reap then some in Unfinished(s.rows) else some in StillScheduled(s.rows);
    assert s.rows[some].status == Scheduled ==> some in StillScheduled(s.rows);
    assert some in EligibleIds(KindOf(cfg, reap), t.rows, {}, t.clock);
  }

  /** Wait, run the dispatcher, or else wait, run the reaper and let the workers process what it
      republished: fewer rows remain unfinished or scheduled. */
  lemma OneRound(cfg: Config, s: State, answers: ProviderAnswers) returns (steps: seq<Step>, t: State)
    requires Sound(s) && s.txs == map[] && cfg.maxAttempts >= 1 && cfg.dispatchLimit >= 1 && cfg.reapLimit >= 1
    requires Unfinished(s.rows) != {}
    ensures Leads(cfg, s, steps, t) && Sound(t) && t.txs == map[] && Progress(cfg, s.rows, t.rows, answers)
    ensures t.workers == s.workers
    ensures Unfinished(t.rows) <= Unfinished(s.rows) && StillScheduled(t.rows) <= StillScheduled(s.rows)
    ensures Unfinished(t.rows) < Unfinished(s.rows) || StillScheduled(t.rows) < StillScheduled(s.rows)
  {
    hide Sound, Leads, RecordOf, EligibleIds, Eligible, Progress;
    var reap, wait, later := WorkComes(cfg, s);
    var round, mid, ids := PollRound(cfg, later, reap, answers);
    LeadsOn(cfg, s, [wait], later, round, mid);
    steps, t := [wait] + round, mid;
    PickedWereOpen(cfg, later, reap, ids);
    SameRows(cfg, s.rows, mid.rows, answers);
    if reap {
      RoundIsReady(cfg, s.rows, mid, ids, answers);
      var rest, last := DeliverAll(cfg, mid, ids, answers);
      SameRows(cfg, mid.rows, last.rows, answers);
      LeadsOn(cfg, s, steps, mid, rest, last);
      ProgressOn(cfg, s.rows, mid.rows, last.rows, answers);
      steps, t := steps + rest, last;
    }
    RoundCounts(s.rows, t.rows, ids, reap);
  }

  lemma RoundIsReady(cfg: Config, rows: Rows, t: State, ids: set<Id>, answers: ProviderAnswers)
    requires Progress(cfg, rows, t.rows, answers) && ids <= rows.Keys
    requires forall id | id in rows && id in ids :: t.rows[id].status == Queued
    requires forall id | id in ids :: RecordOf(rows[id].draft) in t.published
    ensures Ready(t, ids)
  {
  }

  lemma SameRows(cfg: Config, rows: Rows, rows': Rows, answers: ProviderAnswers)
    requires Progress(cfg, rows, rows', answers)
    ensures rows'.Keys == rows.Keys
  {
  }

  /** Dispatching leaves fewer rows scheduled, and delivering leaves fewer unfinished. */
  lemma RoundCounts(rows: Rows, rows': Rows, ids: set<Id>, reap: bool)
    requires rows'.Keys == rows.Keys && ids != {}
    requires ids <= if reap then Unfinished(rows) - StillScheduled(rows) else StillScheduled(rows)
    requires forall id | id in rows ::
               if id !in ids then rows'[id] == rows[id]
               else if reap then Terminal(rows'[id].status) else rows'[id].status == Queued
    ensures Unfinished(rows') <= Unfinished(rows) && StillScheduled(rows') <= StillScheduled(rows)
    ensures Unfinished(rows') < Unfinished(rows) || StillScheduled(rows') < StillScheduled(rows)
  {
    var picked :| picked in ids;
    assert picked in (if reap
        then Unfinished(rows) - Unfinished(rows') else StillScheduled(rows) - StillScheduled(rows'));
  }

  lemma PickedWereOpen(cfg: Config, s: State, reap: bool, ids: set<Id>)
    requires ids <= EligibleIds(KindOf(cfg, reap), s.rows, {}, s.clock)
    ensures ids <= if reap then Unfinished(s.rows) - StillScheduled(s.rows) else StillScheduled(s.rows)
  {
  }

  lemma {:induction false} FinishAll(cfg: Config, s: State, answers: ProviderAnswers)
    returns (steps: seq<Step>, t: State)
    requires Sound(s) && s.txs == map[] && cfg.maxAttempts >= 1 && cfg.dispatchLimit >= 1 && cfg.reapLimit >= 1
    ensures Leads(cfg, s, steps, t) && Progress(cfg, s.rows, t.rows, answers) && Unfinished(t.rows) == {}
    ensures t.txs == map[] && t.workers == s.workers
    decreases |Unfinished(s.rows)| + |StillScheduled(s.rows)|
  {
    hide Sound, Leads, Progress;
    if Unfinished(s.rows) == {} {
      steps, t := [], s;
      NothingHappens(cfg, s, answers);
    } else {
      var first, mid := OneRound(cfg, s, answers);
      FewerRemain(Unfinished(mid.rows), Unfinished(s.rows));
      FewerRemain(StillScheduled(mid.rows), StillScheduled(s.rows));
      var rest, last := FinishAll(cfg, mid, answers);
      LeadsOn(cfg, s, first, mid, rest, last);
      ProgressOn(cfg, s.rows, mid.rows, last.rows, answers);
      steps, t := first + rest, last;
    }
  }

  lemma FewerRemain(a: set<Id>, b: set<Id>)
    requires a <= b
    ensures |a| <= |b| && (a < b ==> |a| < |b|)
  {
    assert b == a + (b - a) && |b| == |a| + |b - a|;
    if a < b { var x :| x in b - a; }
  }

  /** Recovery: take any reachable state, lose every message in Kafka, and let every live worker
      and request hang for good. A continuation without failures, in which the open transactions
      complete, time passes, both pollers run their ticks' batches and workers process what was
      republished, brings every unfinished notification to sent or dead as the provider decides,
      and leaves every finished one as it was. */
  lemma Recovers(cfg: Config, s: State, answers: ProviderAnswers) returns (steps: seq<Step>, t: State)
    requires Reachable(cfg, s) && cfg.maxAttempts >= 1 && cfg.dispatchLimit >= 1 && cfg.reapLimit >= 1
    ensures Leads(cfg, s.(published := {}), steps, t)
    ensures Valid(cfg, s.(published := {}), steps) && Run(cfg, s.(published := {}), steps) == t
    ensures t.rows.Keys == s.rows.Keys
    ensures forall id | id in s.rows ::
              && t.rows[id].draft == s.rows[id].draft
              && if s.rows[id].status in {Sent, Dead, Cancelled} then t.rows[id] == s.rows[id]
                 else t.rows[id].status == Ending(cfg, answers, id, 0)
    // the first answer that is no retry decides, and without one the message is dead
    ensures forall id | id in s.rows && s.rows[id].status !in {Sent, Dead, Cancelled} ::
              && t.rows[id].status in {Sent, Dead}
              && (t.rows[id].status == Sent <==>
                    exists k: nat :: k < cfg.maxAttempts && answers(id, k) == Accept
                                     && forall m: nat | m < k :: answers(id, m) == Retry)
    // nothing fails on the way, and nobody calls the API
    ensures forall x | x in steps ::
              || x.Advance? || x.Select? || x.Commit? || x.Claim? || x.MarkSent? || x.MarkDead?
              || (x.Deliver? && (x.action.Admit? || x.action.Send?))
              || (x.Republish? && x.ok) || (x.DeadLetter? && x.ok)
  {
    var bare := s.(published := {});
    ReachableIsSound(cfg, s);
    hide Sound, Leads, Reachable;
    var first, mid := CompleteAll(cfg, bare, answers);
    var rest, last := FinishAll(cfg, mid, answers);
    LeadsOn(cfg, bare, first, mid, rest, last);
    ProgressOn(cfg, bare.rows, mid.rows, last.rows, answers);
    steps, t := first + rest, last;
    LeadsIsValid(cfg, bare, steps, t);
    LeadsIsSmooth(cfg, bare, steps, t);
    forall id { EndingIs(cfg, answers, id, 0); }
    forall id | id in s.rows ensures Terminal(t.rows[id].status) { assert id !in Unfinished(t.rows); }
  }

  lemma ReachableIsSound(cfg: Config, s: State)
    requires Reachable(cfg, s)
    ensures Sound(s.(published := {}))
  {
    hide Picks, Records, Envelopes, Announced, Holders, Asked, Answered, Counted, EarnedRows, EarnedPhases,
      WrittenOnce, Locks, KeysUnique;
    ReachableInv(cfg, s);
  }
}
