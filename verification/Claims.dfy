/** Where claims come from and what becomes of them, in every run whose claims end in time. */
module Claims {
  import opened Domain
  import opened Table
  import opened Protocol
  import opened Invariants
  import opened Preservation
  import opened Lease
  import opened Window
  import opened Recovery

  // Whoever creates, cancels or publishes, and whatever crashes, rolls back or fails: each claim and
  // each cancel takes one idle notification, and only an insert or an abandoned claim makes one idle.

  ghost function Held(workers: Workers): set<Id> { set w | w in workers :: workers[w].msg.id }

  /** Unfinished, and no live worker is on it. */
  ghost function Idle(s: State): set<Id> { Unfinished(s.rows) - Held(s.workers) }

  // ----- What each step does to the idle notifications -----

  /** A worker gives its claim up without a final write. */
  predicate Leaves(step: Step) { step.Crash? || (step.DeadLetter? && !step.ok) }

  /** What a step takes from the idle ones. */
  function TakenBy(step: Step): set<Id> {
    match step
    case Claim(_, _, _, msg, _) => {msg.id}
    case Cancel(id, _) => {id}
    case _ => {}
  }

  /** What a step makes idle. */
  ghost function Freed(s: State, t: State, step: Step): set<Id> {
    match step
    case Crash(wid) => if wid in s.workers then {s.workers[wid].msg.id} else {}
    case DeadLetter(wid, ok, _) => if !ok && wid in s.workers then {s.workers[wid].msg.id} else {}
    case Insert(_, _, _) => t.rows.Keys - s.rows.Keys
    case _ => {}
  }

  ghost predicate Accounted(s: State, t: State, step: Step) {
    && TakenBy(step) <= Idle(s) && Freed(s, t, step) !! Idle(s)
    && Idle(t) == Idle(s) - TakenBy(step) + Freed(s, t, step)
  }

  lemma SameHolders(s: State, t: State)
    requires Unfinished(t.rows) == Unfinished(s.rows) && t.workers.Keys == s.workers.Keys
    requires forall w | w in s.workers :: t.workers[w].msg == s.workers[w].msg
    ensures Idle(t) == Idle(s)
  {
    assert forall w | w in s.workers :: t.workers[w].msg.id == s.workers[w].msg.id;
    assert Held(t.workers) == Held(s.workers);
  }

  lemma ClaimTakes(s: State, wid: nat, pool: Channel, priority: Priority, msg: Message, stamp: Time)
    requires Leased(s) && CanClaim(s, wid, pool, priority, msg, stamp)
    ensures msg.id in Idle(s) && Idle(DoClaim(s, wid, pool, msg, stamp)) == Idle(s) - {msg.id}
  {
    var t := DoClaim(s, wid, pool, msg, stamp);
    assert Held(t.workers) == Held(s.workers) + {msg.id} by {
      assert forall w | w in s.workers :: t.workers[w] == s.workers[w];
      assert t.workers[wid].msg.id == msg.id;
    }
    assert Unfinished(t.rows) == Unfinished(s.rows);
  }

  lemma CancelTakes(s: State, id: Id, stamp: Time)
    requires Leased(s) && CanCancel(s, id, stamp)
    ensures id in Idle(s) && Idle(s.(rows := s.rows[id := CancelledRow(s.rows[id], stamp)])) == Idle(s) - {id}
  {
  }

  /** Whoever leaves a row was alone on it. */
  lemma WithoutHolder(s: State, wid: nat)
    requires Leased(s) && wid in s.workers
    ensures Held(s.workers - {wid}) == Held(s.workers) - {s.workers[wid].msg.id}
  {
    var rest := s.workers - {wid};
    assert forall w | w in s.workers && w != wid :: w in rest && rest[w].msg.id != s.workers[wid].msg.id;
    assert forall w | w in rest :: w in s.workers && rest[w] == s.workers[w];
  }

  lemma FinishTakesNothing(s: State, wid: nat, r: Row)
    requires Leased(s) && wid in s.workers && s.workers[wid].msg.id in s.rows && Terminal(r.status)
    ensures Idle(DoFinish(s, wid, r)) == Idle(s)
  {
    WithoutHolder(s, wid);
    assert Unfinished(DoFinish(s, wid, r).rows) == Unfinished(s.rows) - {s.workers[wid].msg.id};
  }

  lemma LeavingFrees(s: State, wid: nat)
    requires Leased(s) && HasWorker(s, wid)
    ensures s.workers[wid].msg.id !in Idle(s) && Idle(DoLeave(s, wid)) == Idle(s) + {s.workers[wid].msg.id}
  {
    WithoutHolder(s, wid);
    assert s.workers[wid].msg.id in Held(s.workers);
  }

  lemma CommitTakesNothing(s: State, tid: nat)
    requires CanCommit(s, tid) && Holds(s.rows, s.txs[tid])
    ensures Idle(DoCommit(s, tid)) == Idle(s)
  {
    CommitMoves(s, tid);
    hide DoCommit, Holds;
    assert Unfinished(DoCommit(s, tid).rows) == Unfinished(s.rows);
  }

  lemma InsertFrees(s: State, rid: nat, single: bool, ds: seq<Draft>)
    requires Leased(s) && Keyed(s.rows) && CanInsert(s, rid, single, ds)
    ensures var t := DoInsert(s, rid, single, ds);
            s.rows.Keys <= t.rows.Keys && Idle(t) == Idle(s) + (t.rows.Keys - s.rows.Keys)
  {
    InsertAdds(s, rid, single, ds);
    hide DoInsert, CanInsert, Keyed;
    NewRowsAreIdle(s, DoInsert(s, rid, single, ds));
  }

  lemma NewRowsAreIdle(s: State, t: State)
    requires Leased(s) && Extends(s.rows, t.rows) && t.workers == s.workers
    requires forall id | id in t.rows && id !in s.rows :: t.rows[id] == FreshRow(t.rows[id].draft)
    ensures s.rows.Keys <= t.rows.Keys && Idle(t) == Idle(s) + (t.rows.Keys - s.rows.Keys)
  {
    assert Unfinished(t.rows) == Unfinished(s.rows) + (t.rows.Keys - s.rows.Keys);
    assert Held(s.workers) <= s.rows.Keys;
  }

  /** The remaining steps finish no row and end no claim. */
  lemma OthersTakeNothing(cfg: Config, s: State, step: Step)
    requires Enabled(cfg, s, step) && TakenBy(step) == {} && !Leaves(step)
    requires !step.Insert? && !step.MarkSent? && !step.MarkDead? && !step.Commit?
    ensures Idle(Apply(cfg, s, step)) == Idle(s)
  {
    hide Idle, Eligible, RecordOf, Follows, PhaseAfter, RowRecords;
    SameHolders(s, Apply(cfg, s, step));
  }

  lemma StepAccounts(cfg: Config, s: State, step: Step)
    requires Inv(cfg, s) && Leased(s) && Enabled(cfg, s, step)
    ensures Accounted(s, Apply(cfg, s, step), step)
  {
    hide Inv, Leased, Idle, Accounted;
    if TakenBy(step) != {} || Leaves(step) || step.Insert? {
      TakersAccount(cfg, s, step);
    } else {
      FinishersAccount(cfg, s, step);
    }
  }

  lemma TakersAccount(cfg: Config, s: State, step: Step)
    requires Inv(cfg, s) && Leased(s) && Enabled(cfg, s, step)
    requires TakenBy(step) != {} || Leaves(step) || step.Insert?
    ensures Accounted(s, Apply(cfg, s, step), step)
  {
    hide Keyed, Tallied, Locks, Picks, Records, Envelopes, Announced, Holders, Asked, Answered, Counted,
      EarnedRows, EarnedPhases, WrittenOnce;
    hide Leased, Idle;
    match step
    case Insert(rid, single, ds) => InsertFrees(s, rid, single, ds); IdleAreRows(s);
    case Claim(wid, pool, priority, msg, stamp) => ClaimTakes(s, wid, pool, priority, msg, stamp);
    case Cancel(id, stamp) => CancelTakes(s, id, stamp);
    case Crash(wid) => LeavingFrees(s, wid);
    case DeadLetter(wid, _, written) => LostLetterFrees(s, wid, written);
  }

  lemma FinishersAccount(cfg: Config, s: State, step: Step)
    requires Inv(cfg, s) && Leased(s) && Enabled(cfg, s, step)
    requires TakenBy(step) == {} && !Leaves(step) && !step.Insert?
    ensures Accounted(s, Apply(cfg, s, step), step)
  {
    hide Keyed, Tallied, Locks, Picks, Records, Envelopes, Announced, Holders, Asked, Answered, Counted,
      EarnedRows, EarnedPhases, WrittenOnce;
    hide Leased, Idle;
    match step
    case MarkSent(wid, providerId, stamp) => FinishTakesNothing(s, wid, SentRow(Mine(s, wid), providerId, stamp));
    case MarkDead(wid, error, stamp) => FinishTakesNothing(s, wid, DeadRow(Mine(s, wid), error, stamp));
    case Commit(tid) =>
      PickedIsHeld(s.rows, s.txs, tid);
      CommitTakesNothing(s, tid);
    case _ => OthersTakeNothing(cfg, s, step);
  }

  lemma LostLetterFrees(s: State, wid: nat, written: set<Record>)
    requires Leased(s) && CanDeadLetter(s, wid, false, written)
    ensures var t := DoDeadLetter(s, wid, false, written);
            s.workers[wid].msg.id !in Idle(s) && Idle(t) == Idle(s) + {s.workers[wid].msg.id}
  {
    hide Leased, Idle;
    LeaseIgnoresLetters(s, s.dlq + written);
    LeavingFrees(s.(dlq := s.dlq + written), wid);
  }

  lemma IdleAreRows(s: State)
    ensures Idle(s) <= s.rows.Keys
  {
  }

  lemma LeaseIgnoresLetters(s: State, dlq: set<Record>)
    ensures Leased(s) ==> Leased(s.(dlq := dlq))
    ensures Idle(s.(dlq := dlq)) == Idle(s)
  {
  }

  // ----- Whole runs -----

  predicate Takes(step: Step) { step.Claim? || step.Cancel? }

  /** How many steps of the run claimed or cancelled, and how many abandoned a claim. */
  function TakeCount(steps: seq<Step>): nat {
    if steps == [] then 0 else (if Takes(steps[0]) then 1 else 0) + TakeCount(steps[1..])
  }

  function LeaveCount(steps: seq<Step>): nat {
    if steps == [] then 0 else (if Leaves(steps[0]) then 1 else 0) + LeaveCount(steps[1..])
  }

  lemma StepCounts(cfg: Config, s: State, step: Step)
    requires Inv(cfg, s) && Leased(s) && Enabled(cfg, s, step)
    ensures var t := Apply(cfg, s, step);
            && |s.rows| <= |t.rows|
            && |Idle(t)| + (if Takes(step) then 1 else 0)
            == |Idle(s)| + (|t.rows| - |s.rows|) + (if Leaves(step) then 1 else 0)
  {
    hide Inv, Leased, Idle, Apply, Enabled, TakenBy, Freed;
    var t := Apply(cfg, s, step);
    StepAccounts(cfg, s, step);
    RowsGrow(cfg, s, step);
    LeaversAreThere(cfg, s, step);
    FreedCount(s, t, step);
    Sizes(Idle(s), TakenBy(step), Freed(s, t, step));
    assert |TakenBy(step)| == (if Takes(step) then 1 else 0) by { TakenCount(step); }
  }

  lemma Sizes(idle: set<Id>, taken: set<Id>, freed: set<Id>)
    requires taken <= idle && freed !! idle
    ensures |idle - taken + freed| == |idle| - |taken| + |freed|
  {
    assert |idle - taken + freed| == |idle - taken| + |freed|;
  }

  lemma TakenCount(step: Step)
    ensures |TakenBy(step)| == if Takes(step) then 1 else 0
  {
  }

  lemma FreedCount(s: State, t: State, step: Step)
    requires step.Crash? || step.DeadLetter? ==> step.wid in s.workers
    requires s.rows.Keys <= t.rows.Keys && (!step.Insert? ==> t.rows.Keys == s.rows.Keys)
    ensures |s.rows| <= |t.rows| && |Freed(s, t, step)| == (|t.rows| - |s.rows|) + (if Leaves(step) then 1 else 0)
  {
    assert t.rows.Keys == s.rows.Keys + (t.rows.Keys - s.rows.Keys);
    assert |t.rows.Keys| == |t.rows| && |s.rows.Keys| == |s.rows|;
  }

  lemma LeaversAreThere(cfg: Config, s: State, step: Step)
    requires Enabled(cfg, s, step)
    ensures step.Crash? || step.DeadLetter? ==> step.wid in s.workers
  {
  }

  /** Only an insert adds rows, and nothing removes any. */
  lemma RowsGrow(cfg: Config, s: State, step: Step)
    requires Inv(cfg, s) && Enabled(cfg, s, step)
    ensures s.rows.Keys <= Apply(cfg, s, step).rows.Keys
    ensures !step.Insert? ==> Apply(cfg, s, step).rows.Keys == s.rows.Keys
  {
    hide Keyed, Tallied, Locks, Picks, Records, Envelopes, Announced, Holders, Asked, Answered, Counted,
      EarnedRows, EarnedPhases, WrittenOnce;
    if step.Insert? { InsertAdds(s, step.rid, step.single, step.drafts); }
  }

  lemma TimelyLongEnough(s: State, d: Time, longer: Time)
    requires Timely(s, Lifetime(d)) && d <= longer
    ensures Timely(s, Lifetime(longer))
  {
  }

  /** One step within the window: what is needed of a state is kept. */
  lemma StepStays(cfg: Config, s: State, step: Step, d: Time)
    requires Inv(cfg, s) && Leased(s) && Timely(s, Lifetime(d)) && d <= cfg.inflightAfter && Enabled(cfg, s, step)
    ensures Inv(cfg, Apply(cfg, s, step)) && Leased(Apply(cfg, s, step))
  {
    hide Inv, Leased, Enabled, Apply, OnTime;
    StepKeeps(cfg, s, step);
    TimelyLongEnough(s, d, cfg.inflightAfter);
    StepKeepsLease(cfg, s, step);
  }

  /** In every run in time the claims, the cancels and what is still idle add up to what was idle,
      what was inserted and what was abandoned. */
  lemma {:induction false} RunCounts(cfg: Config, s: State, steps: seq<Step>, d: Time)
    requires Inv(cfg, s) && Leased(s) && d <= cfg.inflightAfter
    requires Valid(cfg, s, steps) && TimelyRun(cfg, s, steps, Lifetime(d))
    ensures var t := Run(cfg, s, steps);
            && |s.rows| <= |t.rows| && Inv(cfg, t) && Leased(t)
            && |Idle(t)| + TakeCount(steps) == |Idle(s)| + (|t.rows| - |s.rows|) + LeaveCount(steps)
    decreases |steps|
  {
    hide Inv, Leased, Idle, Enabled, Apply, Timely;
    if steps != [] {
      StepStays(cfg, s, steps[0], d);
      StepCounts(cfg, s, steps[0]);
      RunCounts(cfg, Apply(cfg, s, steps[0]), steps[1..], d);
    }
  }

  /** Every run in time, whatever else happens in it, has finished all notifications if and only if
      its claims and cancels have used up those that were idle, inserted or abandoned, and its
      workers are done; and there are never more claims and cancels than that. */
  lemma FinishedIff(cfg: Config, s: State, steps: seq<Step>, d: Time)
    requires ReachableInTime(cfg, s, Lifetime(d)) && d <= cfg.inflightAfter
    requires Valid(cfg, s, steps) && TimelyRun(cfg, s, steps, Lifetime(d))
    ensures var t := Run(cfg, s, steps);
            var idled := |Idle(s)| + (|t.rows| - |s.rows|) + LeaveCount(steps);
            && TakeCount(steps) <= idled
            && (Unfinished(t.rows) == {} <==> TakeCount(steps) == idled && t.workers == map[])
  {
    hide Inv, Enabled, Apply, OnTime, ReachableInTime, TimelyRun, Timely, Sole, Unpicked;
    LeaseIsExclusive(cfg, s, d);
    RunCounts(cfg, s, steps, d);
    HoldersAreUnfinished(Run(cfg, s, steps));
    assert |Idle(Run(cfg, s, steps))| == 0 <==> Idle(Run(cfg, s, steps)) == {};
  }

  lemma UnfinishedMeans(rows: Rows)
    ensures Unfinished(rows) == {} <==> forall id | id in rows :: rows[id].status in {Sent, Dead, Cancelled}
  {
    assert forall id | id in rows :: id in Unfinished(rows) <==> rows[id].status !in {Sent, Dead, Cancelled};
  }

  lemma IdleMeans(s: State)
    ensures Idle(s) == set id | id in s.rows && s.rows[id].status !in {Sent, Dead, Cancelled}
                                && forall w | w in s.workers :: s.workers[w].msg.id != id
  {
  }

  /** The counts of a run add up over its steps: one for each claim or cancel, and one for each crash
      of a worker or dead letter that was not written. */
  lemma {:induction false} CountsAdd(steps: seq<Step>, step: Step)
    ensures TakeCount(steps + [step]) == TakeCount(steps) + if step.Claim? || step.Cancel? then 1 else 0
    ensures LeaveCount(steps + [step]) ==
              LeaveCount(steps) + if step.Crash? || (step.DeadLetter? && !step.ok) then 1 else 0
    ensures TakeCount([]) == LeaveCount([]) == 0
  {
    if steps == [] {
      assert [step][1..] == [];
    } else {
      CountsAdd(steps[1..], step);
      assert (steps + [step])[1..] == steps[1..] + [step];
    }
  }

  lemma HoldersAreUnfinished(s: State)
    requires Leased(s)
    ensures forall w | w in s.workers :: s.workers[w].msg.id in Unfinished(s.rows)
  {
  }

  // ----- One notification -----

  /** The step abandons this notification's claim. */
  ghost predicate Abandons(s: State, step: Step, id: Id) {
    Leaves(step) && step.wid in s.workers && s.workers[step.wid].msg.id == id
  }

  /** Idle, or cancelled before anyone claimed it again. */
  ghost predicate Spared(s: State, id: Id)
    requires id in s.rows
  {
    id in Idle(s) || s.rows[id].status == Cancelled
  }

  /** Every attempt but the first is a claim that was abandoned, and so is the first while the
      notification is idle or cancelled. */
  ghost predicate Exact(s: State, id: Id) {
    && id in s.rows && id in s.hist
    && s.rows[id].attempts + (if Spared(s, id) then 1 else 0) == 1 + s.hist[id].abandons
  }

  lemma InsertKeepsRow(cfg: Config, s: State, rid: nat, single: bool, ds: seq<Draft>, id: Id)
    requires Inv(cfg, s) && CanInsert(s, rid, single, ds) && id in s.rows
    ensures var t := DoInsert(s, rid, single, ds);
            id in t.rows && id in t.hist && t.rows[id] == s.rows[id] && id in s.hist && t.hist[id] == s.hist[id]
  {
    InsertAdds(s, rid, single, ds);
  }

  /** What a step does to the attempts and to the abandonments of a notification. */
  lemma StepCountsOne(cfg: Config, s: State, step: Step, id: Id)
    requires Enabled(cfg, s, step) && !step.Insert? && id in s.rows && id in s.hist
    ensures var t := Apply(cfg, s, step);
            && id in t.rows && id in t.hist
            && t.rows[id].attempts == s.rows[id].attempts + (if step.Claim? && step.msg.id == id then 1 else 0)
            && t.hist[id].abandons == s.hist[id].abandons + (if Abandons(s, step, id) then 1 else 0)
  {
    StepCountsAbandons(cfg, s, step, id);
    hide Eligible, RecordOf, Follows, PhaseAfter, RowRecords, Locked, Abandons;
  }

  lemma StepCountsAbandons(cfg: Config, s: State, step: Step, id: Id)
    requires Enabled(cfg, s, step) && !step.Insert? && id in s.hist
    ensures id in Apply(cfg, s, step).hist
    ensures Apply(cfg, s, step).hist[id].abandons == s.hist[id].abandons + (if Abandons(s, step, id) then 1 else 0)
  {
    hide Eligible, RecordOf, Follows, PhaseAfter, RowRecords, Locked, Table.MarkQueued, Requeue;
  }

  /** A cancelled row stays so, and no other step cancels. */
  lemma StepCancels(cfg: Config, s: State, step: Step, id: Id)
    requires Inv(cfg, s) && Leased(s) && Enabled(cfg, s, step) && !step.Insert? && id in s.rows
    ensures id in Apply(cfg, s, step).rows
    ensures Apply(cfg, s, step).rows[id].status == Cancelled
       <==> s.rows[id].status == Cancelled || (step.Cancel? && step.id == id)
  {
    hide Keyed, Tallied, Locks, Picks, Records, Envelopes, Announced, Holders, Asked, Answered, Counted,
      EarnedRows, EarnedPhases, WrittenOnce;
    hide Eligible, RecordOf, Follows, PhaseAfter, RowRecords, Sole, Unpicked;
    if step.Commit? { PickedIsHeld(s.rows, s.txs, step.tid); }
  }

  lemma StepKeepsExact(cfg: Config, s: State, step: Step, id: Id)
    requires Inv(cfg, s) && Leased(s) && Enabled(cfg, s, step)
    requires id in s.rows ==> Exact(s, id)
    requires id in Apply(cfg, s, step).rows
    ensures Exact(Apply(cfg, s, step), id)
  {
    hide Inv, Leased, Idle, Enabled, Apply, Accounted, Exact;
    StepAccounts(cfg, s, step);
    if id !in s.rows {
      NewIsExact(cfg, s, step, id);
    } else if step.Insert? {
      OldStaysExact(cfg, s, step, id);
    } else {
      ExactIsCounted(s, id);
      StepCountsOne(cfg, s, step, id);
      StepCancels(cfg, s, step, id);
      ExactMoves(s, Apply(cfg, s, step), step, id);
    }
  }

  lemma ExactIsCounted(s: State, id: Id)
    requires Exact(s, id)
    ensures id in s.rows && id in s.hist
  {
  }

  lemma OldStaysExact(cfg: Config, s: State, step: Step, id: Id)
    requires Inv(cfg, s) && Enabled(cfg, s, step) && step.Insert? && Exact(s, id)
    requires Accounted(s, Apply(cfg, s, step), step)
    ensures Exact(Apply(cfg, s, step), id)
  {
    var t := Apply(cfg, s, step);
    InsertKeepsRow(cfg, s, step.rid, step.single, step.drafts, id);
    assert t == DoInsert(s, step.rid, step.single, step.drafts);
    hide Inv, Idle, DoInsert, Enabled, Apply;
    SameStanding(s, t, step, id);
  }

  lemma SameStanding(s: State, t: State, step: Step, id: Id)
    requires Exact(s, id) && Accounted(s, t, step) && step.Insert?
    requires id in t.rows && id in t.hist && t.rows[id] == s.rows[id] && t.hist[id] == s.hist[id]
    ensures Exact(t, id)
  {
    hide Idle;
    assert id !in Freed(s, t, step);
  }

  lemma ExactMoves(s: State, t: State, step: Step, id: Id)
    requires Accounted(s, t, step) && Exact(s, id) && !step.Insert? && id in t.rows && id in t.hist
    requires t.rows[id].attempts == s.rows[id].attempts + (if step.Claim? && step.msg.id == id then 1 else 0)
    requires t.hist[id].abandons == s.hist[id].abandons + (if Abandons(s, step, id) then 1 else 0)
    requires t.rows[id].status == Cancelled <==> s.rows[id].status == Cancelled || (step.Cancel? && step.id == id)
    ensures Exact(t, id)
  {
    if id in Idle(s) { IdleIsOpen(s, id); }
    if id in Idle(t) { IdleIsOpen(t, id); }
    hide Idle;
  }

  lemma IdleIsOpen(s: State, id: Id)
    requires id in Idle(s)
    ensures id in s.rows && !Terminal(s.rows[id].status)
  {
  }

  lemma NewIsExact(cfg: Config, s: State, step: Step, id: Id)
    requires Inv(cfg, s) && Leased(s) && Enabled(cfg, s, step) && id !in s.rows && id in Apply(cfg, s, step).rows
    requires Accounted(s, Apply(cfg, s, step), step)
    ensures Exact(Apply(cfg, s, step), id)
  {
    RowsGrow(cfg, s, step);
    InsertAdds(s, step.rid, step.single, step.drafts);
    hide Keyed, Locks, Picks, Records, Envelopes, Announced, Holders, Asked, Answered, Counted,
      EarnedRows, EarnedPhases, WrittenOnce;
    hide Leased, Idle;
  }

  lemma {:induction false} RunKeepsExact(cfg: Config, s: State, steps: seq<Step>, d: Time)
    requires Inv(cfg, s) && Leased(s) && d <= cfg.inflightAfter && forall id | id in s.rows :: Exact(s, id)
    requires Valid(cfg, s, steps) && TimelyRun(cfg, s, steps, Lifetime(d))
    ensures forall id | id in Run(cfg, s, steps).rows :: Exact(Run(cfg, s, steps), id)
    decreases |steps|
  {
    hide Inv, Leased, Exact, Enabled, Apply, Timely;
    if steps != [] {
      var next := Apply(cfg, s, steps[0]);
      forall id | id in next.rows ensures Exact(next, id) { StepKeepsExact(cfg, s, steps[0], id); }
      StepStays(cfg, s, steps[0], d);
      RunKeepsExact(cfg, next, steps[1..], d);
    }
  }

  /** Attempts are abandonments: in every state that runs at this pace reach, a notification has had
      one attempt more than its claims were abandoned, or just as many while it is idle or was
      cancelled. So none is claimed again unless its claim was abandoned. */
  ghost predicate AttemptsAreAbandonments(cfg: Config, pace: Pace) {
    forall s, id | ReachableInTime(cfg, s, pace) && id in s.rows :: Exact(s, id)
  }

  /** That holds if and only if the window covers the longest claim. */
  lemma AttemptsAreAbandonmentsIff(cfg: Config, pace: Pace)
    requires WellTimed(cfg, pace) && 0 <= cfg.inflightAfter && cfg.reapLimit >= 1
    ensures AttemptsAreAbandonments(cfg, pace) <==> Longest(cfg, pace) <= cfg.inflightAfter
    ensures AttemptsAreAbandonments(cfg, pace) <==> forall s, id | ReachableInTime(cfg, s, pace) && id in s.rows ::
              && id in s.hist
              && s.rows[id].attempts == s.hist[id].abandons +
                   if ((forall w | w in s.workers :: s.workers[w].msg.id != id) && s.rows[id].status !in {Sent, Dead})
                      || s.rows[id].status == Cancelled
                   then 0 else 1
  {
    forall s: State, id | id in s.rows { ExactMeans(s, id); }
    hide Enabled, Apply, OnTime, Timely, Longest, Idle, Inv, Leased;
    if Longest(cfg, pace) <= cfg.inflightAfter {
      forall s, id | ReachableInTime(cfg, s, pace) && id in s.rows ensures Exact(s, id) {
        PartsBoundLifetime(cfg, s, pace);
        InTimeIsExact(cfg, s, Longest(cfg, pace));
      }
    } else {
      hide ReachableInTime;
      var s, me := ClaimedTwice(cfg, pace);
      assert s.rows[1].attempts == 2 && s.hist[1].abandons == 0;
    }
  }

  lemma ExactMeans(s: State, id: Id)
    requires id in s.rows
    ensures Exact(s, id) <==>
              && id in s.hist
              && s.rows[id].attempts == s.hist[id].abandons +
                   if ((forall w | w in s.workers :: s.workers[w].msg.id != id) && s.rows[id].status !in {Sent, Dead})
                      || s.rows[id].status == Cancelled
                   then 0 else 1
  {
  }

  lemma InTimeIsExact(cfg: Config, s: State, d: Time)
    requires ReachableInTime(cfg, s, Lifetime(d)) && d <= cfg.inflightAfter
    ensures forall id | id in s.rows :: Exact(s, id)
  {
    hide Enabled, Apply, Timely, Exact;
    var steps :| Valid(cfg, INIT, steps) && TimelyRun(cfg, INIT, steps, Lifetime(d)) && Run(cfg, INIT, steps) == s;
    InitIsLeased(cfg);
    hide Inv, Leased;
    RunKeepsExact(cfg, INIT, steps, d);
  }

  /** Abandonments are only ever added. */
  lemma AbandonsGrow(cfg: Config, s: State, step: Step, id: Id)
    requires Inv(cfg, s) && Enabled(cfg, s, step) && id in s.rows
    ensures id in s.hist && id in Apply(cfg, s, step).rows && id in Apply(cfg, s, step).hist
    ensures Apply(cfg, s, step).hist[id].abandons == s.hist[id].abandons + if Abandons(s, step, id) then 1 else 0
  {
    assert id in s.hist;
    hide Inv, Enabled, Apply, Abandons;
    if step.Insert? {
      InsertAbandonsNothing(cfg, s, step, id);
      assert !Abandons(s, step, id) by { InsertLeavesNobody(s, step, id); }
    } else {
      StepCountsOne(cfg, s, step, id);
    }
  }

  lemma InsertLeavesNobody(s: State, step: Step, id: Id)
    requires step.Insert?
    ensures !Abandons(s, step, id)
  {
  }

  lemma InsertAbandonsNothing(cfg: Config, s: State, step: Step, id: Id)
    requires Inv(cfg, s) && Enabled(cfg, s, step) && step.Insert? && id in s.rows
    ensures var t := Apply(cfg, s, step); id in t.rows && id in t.hist && id in s.hist && t.hist[id] == s.hist[id]
  {
    hide Inv, DoInsert, InsertAll, FreshIds;
    InsertKeepsRow(cfg, s, step.rid, step.single, step.drafts, id);
  }

  lemma {:induction false} RunAbandons(cfg: Config, s: State, steps: seq<Step>, id: Id)
    requires Inv(cfg, s) && Valid(cfg, s, steps) && id in s.rows
    ensures var t := Run(cfg, s, steps);
            id in t.rows && id in s.hist && id in t.hist && s.hist[id].abandons <= t.hist[id].abandons
    decreases |steps|
  {
    assert id in s.hist;
    hide Inv, Enabled, Apply;
    if steps != [] {
      AbandonsGrow(cfg, s, steps[0], id);
      StepKeeps(cfg, s, steps[0]);
      RunAbandons(cfg, Apply(cfg, s, steps[0]), steps[1..], id);
    }
  }

  /** A notification that a worker holds or that is final is not claimed again, in any run in time,
      unless a claim of it is abandoned first; it does not even become idle. */
  lemma {:induction false} BusyUntilAbandoned(cfg: Config, s: State, steps: seq<Step>, id: Id, d: Time)
    requires Inv(cfg, s) && Leased(s) && d <= cfg.inflightAfter && id in s.rows && id !in Idle(s)
    requires Valid(cfg, s, steps) && TimelyRun(cfg, s, steps, Lifetime(d))
    requires var t := Run(cfg, s, steps);
             id in s.hist && id in t.hist && t.hist[id].abandons == s.hist[id].abandons
    ensures id !in Idle(Run(cfg, s, steps))
    ensures forall i | 0 <= i < |steps| && steps[i].Claim? :: steps[i].msg.id != id
    decreases |steps|
  {
    hide Inv, Leased, Idle, Enabled, Apply, Timely, Abandons, Accounted;
    if steps != [] {
      var step, next := steps[0], Apply(cfg, s, steps[0]);
      AbandonsGrow(cfg, s, step, id);
      StepAccounts(cfg, s, step);
      StepStays(cfg, s, step, d);
      RunAbandons(cfg, next, steps[1..], id);
      NotFreed(cfg, s, step, id);
      BusyUntilAbandoned(cfg, next, steps[1..], id, d);
      assert forall i | 0 < i < |steps| :: steps[i] == steps[1..][i - 1];
    }
  }

  lemma NotFreed(cfg: Config, s: State, step: Step, id: Id)
    requires Enabled(cfg, s, step) && Accounted(s, Apply(cfg, s, step), step) && !Abandons(s, step, id)
    requires id in s.rows && id !in Idle(s)
    ensures id !in Idle(Apply(cfg, s, step)) && (step.Claim? ==> step.msg.id != id)
  {
    hide Idle, Apply;
  }
}
