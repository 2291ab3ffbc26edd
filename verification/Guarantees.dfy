/** What the invariant means for the callers of the system: the delivery bound, cancellation,
    provenance, schedules, idempotency and payload integrity, in every reachable state. */
module Guarantees {
  import opened Domain
  import opened Table
  import opened Protocol
  import opened Invariants
  import opened Preservation
  import opened Runs

  // ----- Delivery bound -----

  /** With no timing assumption and whatever Kafka duplicates, loses or reorders: a notification
      is accepted by the provider at most once per claim, and claimed a second time only after a
      reap from 'processing'. */
  lemma DeliveryBound(cfg: Config, s: State, id: Id)
    requires Reachable(cfg, s) && id in s.rows
    ensures id in s.hist
    ensures s.hist[id].accepts <= s.hist[id].claims == s.rows[id].attempts <= 1 + s.hist[id].reaps
  {
    ReachableInv(cfg, s);
    assert Counts(s.rows[id], s.hist[id], |OpenClaims(s.workers, id)|);
  }

  // ----- Cancellation -----

  /** The final statuses are closed under every step, and no step claims such a row. */
  lemma StepKeepsTerminal(cfg: Config, s: State, step: Step, id: Id)
    requires Inv(cfg, s) && Enabled(cfg, s, step) && id in s.rows && s.rows[id].status in {Sent, Dead, Cancelled}
    ensures var t := Apply(cfg, s, step);
            id in t.rows && t.rows[id].status in {Sent, Dead, Cancelled} && t.rows[id].attempts == s.rows[id].attempts
    ensures step.Claim? ==> step.msg.id != id
  {
    hide Keyed, Tallied, Locks, Picks, Records, Envelopes, Announced, Holders, Asked, Answered, Counted,
      EarnedRows, EarnedPhases, WrittenOnce;
    if step.Insert? { InsertAdds(s, step.rid, step.single, step.drafts); }
    if step.Commit? { PickedIsHeld(s.rows, s.txs, step.tid); }
  }

  /** Once cancelled, sent or dead, never claimed again: after a successful Cancel no later
      claim of that notification succeeds in any continuation. */
  lemma {:induction false} TerminalForever(cfg: Config, s: State, steps: seq<Step>, id: Id)
    requires Inv(cfg, s) && Valid(cfg, s, steps) && id in s.rows && s.rows[id].status in {Sent, Dead, Cancelled}
    ensures var t := Run(cfg, s, steps);
            id in t.rows && t.rows[id].status in {Sent, Dead, Cancelled} && t.rows[id].attempts == s.rows[id].attempts
    ensures forall i | 0 <= i < |steps| && steps[i].Claim? :: steps[i].msg.id != id
    decreases |steps|
  {
    hide Inv;
    if steps != [] {
      StepKeeps(cfg, s, steps[0]);
      StepKeepsTerminal(cfg, s, steps[0], id);
      TerminalForever(cfg, Apply(cfg, s, steps[0]), steps[1..], id);
      assert forall i | 0 < i < |steps| :: steps[i] == steps[1..][i - 1];
    }
  }

  lemma CancelIsFinal(cfg: Config, s: State, id: Id, stamp: Time, steps: seq<Step>)
    requires Reachable(cfg, s) && CanCancel(s, id, stamp)
    requires Valid(cfg, Apply(cfg, s, Cancel(id, stamp)), steps)
    ensures var t := Run(cfg, Apply(cfg, s, Cancel(id, stamp)), steps);
            id in t.rows && t.rows[id].status in {Sent, Dead, Cancelled} && t.rows[id].attempts == s.rows[id].attempts
    ensures forall i | 0 <= i < |steps| && steps[i].Claim? :: steps[i].msg.id != id
  {
    ReachableInv(cfg, s);
    hide Inv;
    StepKeeps(cfg, s, Cancel(id, stamp));
    TerminalForever(cfg, Apply(cfg, s, Cancel(id, stamp)), steps, id);
  }

  /** A cancelled row that was never reaped from 'processing' was never claimed, no worker holds
      it and the provider was never called for it. */
  lemma CancelledBeforeDelivery(cfg: Config, s: State, id: Id)
    requires Reachable(cfg, s) && id in s.rows && s.rows[id].status == Cancelled
    requires id in s.hist && s.hist[id].reaps == 0
    ensures s.rows[id].attempts == 0 && s.hist[id].sends == 0 && s.hist[id].accepts == 0
    ensures forall w | w in s.workers :: s.workers[w].msg.id != id
  {
    ReachableInv(cfg, s);
    assert Counts(s.rows[id], s.hist[id], |OpenClaims(s.workers, id)|);
  }

  /** In every reachable state a row that no transaction has selected can be cancelled exactly until a
      worker has claimed it, or it is final; a cancel writes its status and stamp and nothing else. */
  lemma CancellableIff(cfg: Config, s: State, id: Id, stamp: Time)
    requires Reachable(cfg, s) && id in s.rows && stamp <= s.clock
    requires forall t | t in s.txs :: id !in s.txs[t].picked
    ensures Enabled(cfg, s, Cancel(id, stamp)) <==> s.rows[id].status !in {Processing, Sent, Dead, Cancelled}
    ensures Enabled(cfg, s, Cancel(id, stamp)) ==>
              Apply(cfg, s, Cancel(id, stamp)) ==
                s.(rows := s.rows[id := s.rows[id].(status := Cancelled, updatedAt := stamp)])
  {
  }

  /** A fetched message can claim its row exactly when the row is queued or pending and no
      transaction has selected it; only its own channel's pool fetches it. */
  lemma ClaimableIff(cfg: Config, s: State, wid: nat, pool: Channel, priority: Priority, msg: Message, stamp: Time)
    requires Reachable(cfg, s) && Record(TopicFor(pool, priority), msg) in s.published
    requires wid !in s.workers && stamp <= s.clock
    ensures msg.id in s.rows && pool == s.rows[msg.id].draft.channel
    ensures Enabled(cfg, s, Claim(wid, pool, priority, msg, stamp)) <==>
              s.rows[msg.id].status in {Queued, Pending} && forall t | t in s.txs :: msg.id !in s.txs[t].picked
  {
    FetchedHasRow(cfg, s, pool, priority, msg);
    hide Reachable, TopicFor;
  }

  lemma FetchedHasRow(cfg: Config, s: State, pool: Channel, priority: Priority, msg: Message)
    requires Reachable(cfg, s) && Record(TopicFor(pool, priority), msg) in s.published
    ensures msg.id in s.rows && msg.id in s.hist && pool == s.rows[msg.id].draft.channel
  {
    ReachableInv(cfg, s);
    hide Keyed, Locks, Picks, Envelopes, Announced, Holders, Asked, Answered, Counted, EarnedRows, EarnedPhases,
      WrittenOnce, Reachable;
    FetchedIsGenuine(s, pool, priority, msg);
  }

  lemma StepIsSilent(cfg: Config, s: State, step: Step, id: Id)
    requires Inv(cfg, s) && Enabled(cfg, s, step) && id in s.rows && s.rows[id].draft.scheduledAt.Some?
    requires s.rows[id].status in {Sent, Dead, Cancelled} && !Locked(s.txs, id)
    ensures forall r | r in Apply(cfg, s, step).published && r.msg.id == id :: r in s.published
  {
    hide Tallied, Envelopes, Announced, Holders, Answered, Counted, EarnedRows, EarnedPhases, WrittenOnce;
    hide InsertAll, FreshIds, Follows, PhaseAfter, Records, Requeue, Table.MarkQueued, Eligible;
    if step.Publish? { PublishIsOthers(s, step.rid, step.ok, step.written, id); }
    if step.Republish? { RepublishIsOthers(s, step.tid, step.ok, step.written, id); }
  }

  /** No poller selects a final row. */
  lemma FinalStaysUnlocked(cfg: Config, s: State, step: Step, id: Id)
    requires Enabled(cfg, s, step) && id in s.rows
    requires s.rows[id].status in {Sent, Dead, Cancelled} && !Locked(s.txs, id)
    ensures !Locked(Apply(cfg, s, step).txs, id)
  {
    hide InsertAll, FreshIds, Follows, PhaseAfter, Requeue, Table.MarkQueued, RecordOf, RowRecords;
    var t := Apply(cfg, s, step);
    forall x | x in t.txs ensures id !in t.txs[x].picked {
      assert x in s.txs ==> id !in s.txs[x].picked;
    }
  }

  /** Once final, a notification that had a schedule is never published again. */
  lemma {:induction false} SilentForever(cfg: Config, s: State, steps: seq<Step>, id: Id)
    requires Inv(cfg, s) && Valid(cfg, s, steps) && id in s.rows && s.rows[id].draft.scheduledAt.Some?
    requires s.rows[id].status in {Sent, Dead, Cancelled} && !Locked(s.txs, id)
    ensures forall r | r in Run(cfg, s, steps).published && r.msg.id == id :: r in s.published
    decreases |steps|
  {
    hide Inv, Enabled, Apply, Locked;
    if steps != [] {
      StepKeeps(cfg, s, steps[0]);
      StepKeepsTerminal(cfg, s, steps[0], id);
      StepIsSilent(cfg, s, steps[0], id);
      FinalStaysUnlocked(cfg, s, steps[0], id);
      StatusesMove(cfg, s, steps[0], Apply(cfg, s, steps[0]), id);
      SilentForever(cfg, Apply(cfg, s, steps[0]), steps[1..], id);
    }
  }

  /** A scheduled notification that was cancelled is not published in any continuation. */
  lemma CancelledIsNotDispatched(cfg: Config, s: State, id: Id, stamp: Time, steps: seq<Step>)
    requires Reachable(cfg, s) && id in s.rows && s.rows[id].status == Scheduled && stamp <= s.clock
    requires forall t | t in s.txs :: id !in s.txs[t].picked
    ensures Enabled(cfg, s, Cancel(id, stamp))
    ensures Valid(cfg, Apply(cfg, s, Cancel(id, stamp)), steps) ==>
              forall r | r in Run(cfg, Apply(cfg, s, Cancel(id, stamp)), steps).published && r.msg.id == id ::
                r in s.published
  {
    CancellableIff(cfg, s, id, stamp);
    ReachableInv(cfg, s);
    HasSchedule(cfg, s, id);
    hide Inv, Enabled, Apply;
    if Valid(cfg, Apply(cfg, s, Cancel(id, stamp)), steps) {
      StepKeeps(cfg, s, Cancel(id, stamp));
      SilentForever(cfg, Apply(cfg, s, Cancel(id, stamp)), steps, id);
    }
  }

  lemma HasSchedule(cfg: Config, s: State, id: Id)
    requires Inv(cfg, s) && id in s.rows && s.rows[id].status == Scheduled
    ensures s.rows[id].draft.scheduledAt.Some?
  {
  }

  lemma PublishIsOthers(s: State, rid: nat, ok: bool, written: set<Id>, id: Id)
    requires Asked(s.rows, s.published, s.requests) && CanPublish(s, rid, ok, written)
    requires id in s.rows && s.rows[id].draft.scheduledAt.Some?
    ensures forall r | r in DoPublish(s, rid, ok, written).published && r.msg.id == id :: r in s.published
  {
    assert GenuineRequest(s.rows, s.published, s.requests[rid]);
  }

  lemma RepublishIsOthers(s: State, tid: nat, ok: bool, written: set<Id>, id: Id)
    requires Keyed(s.rows) && Locks(s.rows, s.txs) && CanRepublish(s, tid, ok, written) && !Locked(s.txs, id)
    ensures forall r | r in DoRepublish(s, tid, ok, written).published && r.msg.id == id :: r in s.published
  {
    assert Holds(s.rows, s.txs[tid]) && id !in s.txs[tid].picked;
  }

  // ----- What the counters count, and where a status can come from -----

  /** The step is one of a worker on this notification. */
  ghost predicate ByWorkerOn(s: State, wid: nat, id: Id) { wid in s.workers && s.workers[wid].msg.id == id }

  /** The counters of a notification tell the steps of the kind they are named after. */
  lemma CountersCount(cfg: Config, s: State, step: Step, t: State, id: Id)
    requires Inv(cfg, s) && Enabled(cfg, s, step) && t == Apply(cfg, s, step) && id in s.hist
    ensures id in t.hist
    ensures var h := s.hist[id];
            t.hist[id] ==
              match step
              case Claim(_, _, _, msg, _) => if msg.id == id then h.(claims := h.claims + 1) else h
              case Deliver(wid, action) =>
                if !ByWorkerOn(s, wid, id) then h
                else if action == Send(Accept) then h.(sends := h.sends + 1, accepts := h.accepts + 1)
                else if action.Send? then h.(sends := h.sends + 1) else h
              case DeadLetter(wid, ok, _) =>
                if !ok && ByWorkerOn(s, wid, id) then h.(abandons := h.abandons + 1) else h
              case Crash(wid) => if ByWorkerOn(s, wid, id) then h.(abandons := h.abandons + 1) else h
              case Commit(tid) => if TakesBack(s, tid, id) then h.(reaps := h.reaps + 1) else h
              case Publish(_, _, _) => h.(apiWrites := t.hist[id].apiWrites)
              case _ => h
  {
    hide Inv, RecordOf, Eligible, Table.MarkQueued, Locked, FreshIds, InsertAll, RowRecords, RecordsOf, Requeue,
      PhaseAfter, Follows, Moved, Envelope;
    match step
    case Insert(_, _, _) => InsertKeepsCounters(cfg, s, step, id);
    case Claim(wid, pool, _, msg, stamp) => assert t == DoClaim(s, wid, pool, msg, stamp);
    case Deliver(wid, action) => assert t == DoDeliver(cfg, s, wid, action);
    case DeadLetter(wid, ok, written) => assert t == DoDeadLetter(s, wid, ok, written);
    case Crash(wid) => assert t == DoLeave(s, wid);
    case Commit(tid) => assert t == DoCommit(s, tid);
    case Publish(rid, ok, written) => assert t == DoPublish(s, rid, ok, written);
    case _ => OthersCountNothing(cfg, s, step);
  }

  lemma OthersCountNothing(cfg: Config, s: State, step: Step)
    requires Enabled(cfg, s, step) && !step.Insert? && !step.Claim? && !step.Deliver? && !step.DeadLetter?
    requires !step.Crash? && !step.Commit? && !step.Publish?
    ensures Apply(cfg, s, step).hist == s.hist
  {
    hide RecordOf, Eligible, Table.MarkQueued, Locked, RowRecords, Found;
  }

  /** The transaction selected this row in 'processing'. */
  ghost predicate TakesBack(s: State, tid: nat, id: Id) {
    tid in s.txs && id in s.txs[tid].picked && s.txs[tid].picked[id].status == Processing
  }

  lemma InsertKeepsCounters(cfg: Config, s: State, step: Step, id: Id)
    requires Inv(cfg, s) && Enabled(cfg, s, step) && step.Insert? && id in s.hist
    ensures id in Apply(cfg, s, step).hist && Apply(cfg, s, step).hist[id] == s.hist[id]
  {
    hide Locks, Picks, Records, Envelopes, Announced, Holders, Asked, Answered, Counted, EarnedRows, EarnedPhases,
      WrittenOnce, InsertAll, FreshIds;
    InsertAdds(s, step.rid, step.single, step.drafts);
  }

  /** Where a row can go in one step, and by whose hand. Nothing else about it changes but its
      attempts, its stamp and what its end records. */
  lemma StatusesMove(cfg: Config, s: State, step: Step, t: State, id: Id)
    requires Inv(cfg, s) && Enabled(cfg, s, step) && t == Apply(cfg, s, step) && id in s.rows
    ensures id in t.rows && t.rows[id].draft == s.rows[id].draft
    ensures var r := s.rows[id];
            match step
            case Claim(_, _, _, msg, stamp) =>
              if msg.id != id then t.rows[id] == r
              else r.status in {Pending, Queued}
                   && t.rows[id] == r.(status := Processing, attempts := r.attempts + 1, updatedAt := stamp)
            case Cancel(x, stamp) =>
              if x != id then t.rows[id] == r
              else r.status in {Pending, Queued, Scheduled}
                   && t.rows[id] == r.(status := Cancelled, updatedAt := stamp)
            case MarkQueued(_, stamp) =>
              t.rows[id] == r || (r.status == Pending && t.rows[id] == r.(status := Queued, updatedAt := stamp))
            case Commit(tid) =>
              if !(tid in s.txs && id in s.txs[tid].picked) then t.rows[id] == r
              else r.status in (if s.txs[tid].kind.Dispatch? then {Scheduled} else {Pending, Queued, Processing})
                   && t.rows[id] == r.(status := Queued, updatedAt := s.txs[tid].stamp)
            case MarkSent(wid, providerId, stamp) =>
              t.rows[id] == if !ByWorkerOn(s, wid, id) then r
                            else r.(status := Sent, sentAt := Some(stamp), lastError := None, updatedAt := stamp,
                                    providerId := if providerId == "" then None else Some(providerId))
            case MarkDead(wid, error, stamp) =>
              t.rows[id] == if !ByWorkerOn(s, wid, id) then r
                            else r.(status := Dead, lastError := Some(error), updatedAt := stamp)
            case _ => t.rows[id] == r
  {
    hide Keyed, Picks, Records, Envelopes, Announced, Holders, Asked, Answered, Counted, EarnedRows, EarnedPhases,
      WrittenOnce, Tallied;
    if step.Insert? {
      hide InsertAll, FreshIds;
      InsertAdds(s, step.rid, step.single, step.drafts);
    } else if step.Commit? {
      PickedIsHeld(s.rows, s.txs, step.tid);
    } else {
      hide Inv, RecordOf, Eligible, Locked, FreshIds, InsertAll, RowRecords, RecordsOf, PhaseAfter, Follows, Envelope;
    }
  }

  // ----- Locks -----

  /** The update a committing poller would run if it checked that each row is still as selected
      and still has a status it may requeue. */
  function GuardedRequeue(rows: Rows, tx: Tx): Rows {
    map id | id in rows ::
      if id in tx.picked && rows[id] == tx.picked[id] && Pickable(tx.kind, rows[id].status)
      then rows[id].(status := Queued, updatedAt := tx.stamp) else rows[id]
  }

  lemma HeldRowsNeedNoGuard(rows: Rows, tx: Tx)
    requires Holds(rows, tx)
    ensures Requeue(rows, tx.picked.Keys, tx.stamp) == GuardedRequeue(rows, tx)
    ensures forall id | id in rows && rows[id].status in {Sent, Dead, Cancelled} ::
              GuardedRequeue(rows, tx)[id] == rows[id]
  {
  }

  /** Row locks make the commit's bare `WHERE id = ANY` as good as the guarded one, for any number
      of dispatchers and reapers: no two hold the same row, and none revives a final status. */
  lemma LocksMakeCommitSafe(cfg: Config, s: State, tid: nat)
    requires Reachable(cfg, s) && CanCommit(s, tid)
    ensures DoCommit(s, tid).rows == GuardedRequeue(s.rows, s.txs[tid])
    ensures forall id | id in s.rows && s.rows[id].status in {Sent, Dead, Cancelled} ::
              DoCommit(s, tid).rows[id] == s.rows[id]
    ensures forall t, u | t in s.txs && u in s.txs && t != u :: s.txs[t].picked.Keys !! s.txs[u].picked.Keys
    ensures forall t, id | t in s.txs && id in s.txs[t].picked :: id in s.rows && s.rows[id] == s.txs[t].picked[id]
  {
    hide Keyed, Tallied, Picks, Records, Envelopes, Announced, Holders, Asked, Answered, Counted, EarnedRows,
      EarnedPhases, WrittenOnce;
    hide GuardedRequeue, Requeue;
    ReachableInv(cfg, s);
    HeldRowsNeedNoGuard(s.rows, s.txs[tid]);
  }

  // ----- Provenance -----

  /** What each status testifies to, even when failed publishes wrote part of a batch. */
  lemma StatusProvenance(cfg: Config, s: State, id: Id)
    requires Reachable(cfg, s) && id in s.rows && id in s.hist
    ensures s.rows[id].status in {Queued, Processing, Sent, Dead} ==> RecordOf(s.rows[id].draft) in s.published
    ensures s.rows[id].status == Sent && cfg.maxAttempts >= 1 ==> 0 < s.hist[id].accepts <= s.rows[id].attempts
    ensures s.rows[id].status == Dead ==> EnvelopeOf(s.rows[id].draft) in s.dlq
  {
    ReachableInv(cfg, s);
    assert Counts(s.rows[id], s.hist[id], |OpenClaims(s.workers, id)|);
  }

  /** 'sent' means that the provider accepted, in every reachable state, exactly when at least
      one attempt is configured. */
  lemma SentIsEarnedIff(cfg: Config)
    ensures (forall s, id | Reachable(cfg, s) && id in s.rows && s.rows[id].status == Sent ::
               id in s.hist && s.hist[id].accepts > 0)
       <==> cfg.maxAttempts >= 1
  {
    if cfg.maxAttempts >= 1 {
      forall s, id | Reachable(cfg, s) && id in s.rows && s.rows[id].status == Sent
        ensures id in s.hist && s.hist[id].accepts > 0
      {
        ReachableInv(cfg, s);
        StatusProvenance(cfg, s, id);
      }
    } else {
      var s := SentUnearned(cfg);
    }
  }

  // ----- Schedules -----

  /** No message is published, no claim succeeds and no Send happens before the scheduled time. */
  lemma ScheduleRespected(cfg: Config, s: State, step: Step)
    requires Reachable(cfg, s) && Enabled(cfg, s, step)
    ensures forall r | r in Apply(cfg, s, step).published && r !in s.published ::
              && r.msg.id in s.rows
              && var d := s.rows[r.msg.id].draft; d.scheduledAt.Some? ==> d.scheduledAt.value <= s.clock
    ensures step.Claim? ==>
              var d := s.rows[step.msg.id].draft; d.scheduledAt.Some? ==> d.scheduledAt.value <= s.clock
    ensures step.Deliver? ==>
              var d := s.rows[s.workers[step.wid].msg.id].draft; d.scheduledAt.Some? ==> d.scheduledAt.value <= s.clock
  {
    hide Inv;
    ReachableInv(cfg, s);
    PublishedOnTime(cfg, s, step);
    if step.Claim? { ClaimedOnTime(cfg, s, step.wid, step.pool, step.priority, step.msg, step.stamp); }
    if step.Deliver? { DeliveredOnTime(cfg, s, step.wid, step.action); }
  }

  lemma ClaimedOnTime(cfg: Config, s: State, wid: nat, pool: Channel, priority: Priority, msg: Message, stamp: Time)
    requires Inv(cfg, s) && CanClaim(s, wid, pool, priority, msg, stamp)
    ensures DueBy(s.rows[msg.id].draft, s.clock)
  {
    FetchedIsGenuine(s, pool, priority, msg);
  }

  lemma DeliveredOnTime(cfg: Config, s: State, wid: nat, action: Action)
    requires Inv(cfg, s) && CanDeliver(cfg, s, wid, action)
    ensures DueBy(s.rows[s.workers[wid].msg.id].draft, s.clock)
  {
    assert GenuineWorker(s.rows, s.published, s.workers[wid]);
    assert Genuine(s.rows, s.clock, RecordOf(s.rows[s.workers[wid].msg.id].draft));
  }

  lemma PublishedOnTime(cfg: Config, s: State, step: Step)
    requires Inv(cfg, s) && Enabled(cfg, s, step)
    ensures forall r | r in Apply(cfg, s, step).published && r !in s.published ::
              r.msg.id in s.rows && DueBy(s.rows[r.msg.id].draft, s.clock)
  {
    hide Tallied, Envelopes, Announced, Holders, Answered, Counted, EarnedRows, EarnedPhases, WrittenOnce;
    if step.Publish? {
      assert GenuineRequest(s.rows, s.published, s.requests[step.rid]);
    } else if step.Republish? {
      assert Holds(s.rows, s.txs[step.tid]) && GenuineTx(s.clock, s.published, s.txs[step.tid]);
    }
  }

  // ----- Idempotency -----

  /** Whatever mix of single and batch creates ran: no two rows share a key, every reply for a key
      names the same row, and a single create is answered with a replay exactly when the row of its
      key has its payload, and with a conflict otherwise. */
  lemma Idempotent(cfg: Config, s: State, p: Reply, q: Reply)
    requires Reachable(cfg, s) && p in s.replies && q in s.replies
    ensures forall a, b | a in s.rows && b in s.rows && a != b && s.rows[a].draft.key.Some? ::
              s.rows[a].draft.key != s.rows[b].draft.key
    ensures p.draft.key.Some? && p.draft.key == q.draft.key ==> p.id == q.id
    ensures p.draft.key.Some? && p.draft.key == q.draft.key && p.outcome == q.outcome == Created ==> p == q
    ensures p.id in s.rows
    ensures p.outcome == Created ==> s.rows[p.id].draft == p.draft
    ensures p.outcome in {Replayed, Mismatch} ==>
              var d := s.rows[p.id].draft;
              && d.key == p.draft.key && d.key.Some?
              && (p.outcome == Replayed <==>
                    d.recipient == p.draft.recipient && d.channel == p.draft.channel && d.content == p.draft.content)
  {
    ReachableInv(cfg, s);
    assert TrueReply(s.rows, p) && TrueReply(s.rows, q);
  }

  const TWICE := SAMPLE.(key := Some("k"))
  const OTHER := TWICE.(id := 2, content := "other")

  /** Only a single create compares payloads: a batch item may be pointed to a row with another. */
  lemma BatchPointsElsewhere(cfg: Config) returns (s: State, p: Reply)
    ensures Reachable(cfg, s) && p in s.replies && p.outcome == BatchDuplicate && p.id in s.rows
    ensures !s.rows[p.id].SamePayload(p.draft.recipient, p.draft.channel, p.draft.content)
  {
    var ds := [TWICE, OTHER];
    assert Valid(cfg, INIT, []) && TimelyRun(cfg, INIT, [], Lifetime(0)) && Run(cfg, INIT, []) == INIT;
    assert ds[..1] == [TWICE] && ds[..1][..0] == [];
    var t := map[1 := FreshRow(TWICE)];
    assert InsertAll(map[], ds[..1]) == t;
    assert t[1].draft.key == OTHER.key;
    assert InsertAll(map[], ds) == t;
    InTimeStep(cfg, INIT, Insert(0, false, ds), Lifetime(0));
    var s1 := Apply(cfg, INIT, Insert(0, false, ds));
    assert OTHER in s1.requests[0].conflicts;
    InTimeStep(cfg, s1, Lookup(0, OTHER), Lifetime(0));
    s := Apply(cfg, s1, Lookup(0, OTHER));
    p := Reply(BatchDuplicate, OTHER, 1);
    InTimeIsReachable(cfg, s, Lifetime(0));
  }

  /** Only the request that inserted a notification writes it through the API, and only once. */
  lemma PublishedByItsInserter(cfg: Config, s: State, rid: nat, ok: bool, written: set<Id>)
    requires Reachable(cfg, s) && CanPublish(s, rid, ok, written)
    ensures forall id | id in IdsOf(PendingOf(s.requests[rid].added)) ::
              id in s.hist && s.hist[id].apiWrites == 0 && DoPublish(s, rid, ok, written).hist[id].apiWrites == 1
    ensures forall d | d in s.requests[rid].added && d.scheduledAt.None? ::
              d.id in s.hist && s.hist[d.id].apiWrites == 0 && DoPublish(s, rid, ok, written).hist[d.id].apiWrites == 1
    ensures forall q | q in s.requests && q != rid && s.requests[q].Inserted? ::
              IdsOf(s.requests[q].added) !! IdsOf(s.requests[rid].added)
  {
    ReachableInv(cfg, s);
  }

  // ----- Payload and routing -----

  /** Every copy of a notification anywhere in the system is its row's immutable columns, on the
      topic of its row's channel and priority, in the hands of its own channel's pool. */
  lemma PayloadIntegrity(cfg: Config, s: State)
    requires Reachable(cfg, s)
    ensures forall r | r in s.published :: r.msg.id in s.rows && r == RecordOf(s.rows[r.msg.id].draft)
    ensures forall e | e in s.dlq :: e.msg.id in s.rows && e == EnvelopeOf(s.rows[e.msg.id].draft)
    ensures forall w | w in s.workers :: s.workers[w].msg.id in s.rows
              && var d := s.rows[s.workers[w].msg.id].draft;
                 s.workers[w].msg == MessageOf(d) && s.workers[w].pool == d.channel
    // field by field
    ensures forall r | r in s.published ::
              var d := s.rows[r.msg.id].draft;
              && r.msg.recipient == d.recipient && r.msg.content == d.content && r.msg.channel == d.channel
              && r.msg.priority == d.priority && r.msg.createdAt == d.createdAt && r.msg.id == d.id
              && r.topic == (match d.channel case Sms => "sms" case Email => "email" case Push => "push") + "."
                            + match d.priority case High => "high" case Normal => "normal" case Low => "low"
    ensures forall e | e in s.dlq ::
              var d := s.rows[e.msg.id].draft;
              && e.msg.recipient == d.recipient && e.msg.content == d.content && e.msg.channel == d.channel
              && e.msg.priority == d.priority && e.msg.createdAt == d.createdAt && e.msg.id == d.id
              && e.topic == (match d.channel case Sms => "sms" case Email => "email" case Push => "push") + ".dlq"
    ensures forall w | w in s.workers ::
              var msg, d := s.workers[w].msg, s.rows[s.workers[w].msg.id].draft;
              && msg.recipient == d.recipient && msg.content == d.content && msg.channel == d.channel
              && msg.priority == d.priority && msg.createdAt == d.createdAt && msg.id == d.id
  {
    ReachableInv(cfg, s);
    CopiesAreGenuine(cfg, s);
    hide Inv, RecordOf, EnvelopeOf, MessageOf, Reachable;
    forall id | id in s.rows { WireFormat(s.rows[id].draft); }
  }

  lemma CopiesAreGenuine(cfg: Config, s: State)
    requires Inv(cfg, s)
    ensures forall r | r in s.published :: r.msg.id in s.rows && r == RecordOf(s.rows[r.msg.id].draft)
    ensures forall e | e in s.dlq :: e.msg.id in s.rows && e == EnvelopeOf(s.rows[e.msg.id].draft)
    ensures forall w | w in s.workers :: s.workers[w].msg.id in s.rows
              && var d := s.rows[s.workers[w].msg.id].draft;
                 s.workers[w].msg == MessageOf(d) && s.workers[w].pool == d.channel
  {
    forall r | r in s.published ensures Genuine(s.rows, s.clock, r) {}
    forall w | w in s.workers ensures GenuineWorker(s.rows, s.published, s.workers[w]) {}
  }
}
