/** Every schedule that keeps going finishes every notification. */
module Liveness {
  import opened Domain
  import opened Table
  import opened Protocol
  import opened Invariants
  import opened Preservation
  import opened Recovery
  import opened Claims
  import Guarantees
  import Runs
  import Refinement

  // Whatever the reaper's window, the interleaving, the requests, the cancels, the crashes, the failed
  // publishes and the rollbacks: it is enough that time passes, that claims end and are not abandoned
  // for ever, and that the pollers and fetchers keep up.

  /** An infinite run: the state before each step, and the step. */
  datatype Schedule = Schedule(state: nat -> State, step: nat -> Step)

  ghost predicate Proper(cfg: Config, x: Schedule) {
    && Reachable(cfg, x.state(0))
    && forall i: nat :: Enabled(cfg, x.state(i), x.step(i)) && Apply(cfg, x.state(i), x.step(i)) == x.state(i + 1)
  }

  // ----- Fairness -----

  ghost predicate Passes(x: Schedule, time: Time) { exists i: nat :: x.state(i).clock > time }

  /** The worker is on the notification, by the claim it made at that time. */
  ghost predicate Works(s: State, wid: nat, id: Id, claimedAt: Time) {
    wid in s.workers && s.workers[wid].msg.id == id && s.workers[wid].claimedAt == claimedAt
  }

  ghost predicate Ends(x: Schedule, wid: nat, id: Id, claimedAt: Time, i: nat) {
    exists j: nat :: i <= j && !Works(x.state(j), wid, id, claimedAt)
  }

  /** From then on no claim of this notification is abandoned. */
  ghost predicate SeenThrough(x: Schedule, id: Id, n: nat) {
    forall i: nat | n <= i :: !Abandons(x.state(i), x.step(i), id)
  }

  ghost predicate Settles(x: Schedule, id: Id) { exists n: nat :: SeenThrough(x, id, n) }

  /** The commit of a transaction that selected this row. */
  ghost predicate Requeues(x: Schedule, id: Id, i: nat) {
    x.step(i).Commit? && x.step(i).tid in x.state(i).txs && id in x.state(i).txs[x.step(i).tid].picked
  }

  /** No worker is on the row, and a poller's query would return it now. */
  ghost predicate Stuck(cfg: Config, s: State, id: Id) {
    id in Idle(s)
        && (Eligible(KindOf(cfg, false), s.rows[id], s.clock) || Eligible(KindOf(cfg, true), s.rows[id], s.clock))
  }

  ghost predicate Relieved(cfg: Config, x: Schedule, id: Id, i: nat) {
    exists k: nat :: i <= k && (Requeues(x, id, k) || !Stuck(cfg, x.state(k), id))
  }

  /** A worker's claim for the message: it succeeds if it can. */
  ghost predicate Tries(x: Schedule, id: Id, k: nat) {
    && id in x.state(k).rows && !Locked(x.state(k).txs, id)
    && (Claimable(x.state(k).rows[id].status) ==> x.step(k).Claim? && x.step(k).msg.id == id)
  }

  ghost predicate Fetched(x: Schedule, id: Id, i: nat) { exists k: nat :: i < k && Tries(x, id, k) }

  /** Time passes; every claim ends, and each notification's claims are abandoned only so often; no
      row stays stuck for ever without a poller's commit; and what a poller has queued is fetched at
      some later time. */
  ghost predicate Fair(cfg: Config, x: Schedule) {
    && (forall time :: Passes(x, time))
    && (forall wid, id, claimedAt, i: nat :: Ends(x, wid, id, claimedAt, i))
    && (forall id :: Settles(x, id))
    && (forall id, i: nat :: Relieved(cfg, x, id, i))
    && (forall id, i: nat | Requeues(x, id, i) :: Fetched(x, id, i))
  }

  // ----- One step -----

  ghost predicate Final(s: State, id: Id) { id in s.rows && Terminal(s.rows[id].status) }

  /** A worker that does not abandon its claim keeps it until the row is final: its last write
      does not look at the status. */
  lemma HeldEvolves(cfg: Config, s: State, step: Step, wid: nat, id: Id, claimedAt: Time)
    requires Enabled(cfg, s, step) && !Abandons(s, step, id) && Works(s, wid, id, claimedAt)
    ensures Works(Apply(cfg, s, step), wid, id, claimedAt) || Final(Apply(cfg, s, step), id)
  {
    hide Eligible, RecordOf, Follows, PhaseAfter, RowRecords, Locked, Table.MarkQueued, Requeue, InsertAll;
  }

  /** What may happen to an idle row in one step. */
  ghost predicate Moves(s: State, t: State, step: Step, id: Id)
    requires id in s.rows
  {
    || (step.Claim? && step.msg.id == id)
    || Final(t, id)
    || (step.Commit? && step.tid in s.txs && id in s.txs[step.tid].picked && id in t.rows
        && t.rows[id].status == Queued)
    || (s.rows[id].status == Pending && id in Idle(t) && t.rows[id].status == Queued)
  }

  lemma IdleEvolves(cfg: Config, s: State, step: Step, id: Id)
    requires Inv(cfg, s) && Enabled(cfg, s, step) && id in Idle(s)
    ensures var t := Apply(cfg, s, step); Moves(s, t, step, id) || (id in Idle(t) && t.rows[id] == s.rows[id])
  {
    hide Inv;
    if step.Insert? {
      InsertLeavesIdle(cfg, s, step, id);
    } else {
      IdleRowMoves(cfg, s, step, id);
    }
  }

  lemma InsertLeavesIdle(cfg: Config, s: State, step: Step, id: Id)
    requires Inv(cfg, s) && Enabled(cfg, s, step) && step.Insert? && id in Idle(s)
    ensures var t := Apply(cfg, s, step); id in Idle(t) && t.rows[id] == s.rows[id]
  {
    hide InsertAll, FreshIds;
    InsertKeepsRow(cfg, s, step.rid, step.single, step.drafts, id);
    hide Inv;
  }

  lemma IdleRowMoves(cfg: Config, s: State, step: Step, id: Id)
    requires Enabled(cfg, s, step) && !step.Insert? && id in Idle(s)
    ensures var t := Apply(cfg, s, step); Moves(s, t, step, id) || (id in Idle(t) && t.rows[id] == s.rows[id])
  {
    hide Eligible, RecordOf, Follows, PhaseAfter, RowRecords, Locked;
    var t := Apply(cfg, s, step);
    assert forall w | w in s.workers :: s.workers[w].msg.id != id by { NobodyIsOnIdle(s, id); }
    assert (step.Claim? && step.msg.id == id) || forall w | w in t.workers :: t.workers[w].msg.id != id;
  }

  lemma NobodyIsOnIdle(s: State, id: Id)
    requires id in Idle(s)
    ensures forall w | w in s.workers :: s.workers[w].msg.id != id
  {
  }

  /** No row is scheduled again. */
  lemma NeverScheduledAgain(cfg: Config, s: State, step: Step, id: Id)
    requires Inv(cfg, s) && Enabled(cfg, s, step) && id in s.rows && s.rows[id].status != Scheduled
    ensures id in Apply(cfg, s, step).rows && Apply(cfg, s, step).rows[id].status != Scheduled
  {
    hide Inv;
    if step.Insert? {
      InsertLeavesRow(cfg, s, step, id);
    } else {
      UpdatesScheduleNothing(cfg, s, step, id);
    }
  }

  lemma InsertLeavesRow(cfg: Config, s: State, step: Step, id: Id)
    requires Inv(cfg, s) && Enabled(cfg, s, step) && step.Insert? && id in s.rows
    ensures var t := Apply(cfg, s, step); id in t.rows && t.rows[id] == s.rows[id]
  {
    hide InsertAll, FreshIds;
    InsertKeepsRow(cfg, s, step.rid, step.single, step.drafts, id);
  }

  lemma UpdatesScheduleNothing(cfg: Config, s: State, step: Step, id: Id)
    requires Enabled(cfg, s, step) && !step.Insert? && id in s.rows && s.rows[id].status != Scheduled
    ensures id in Apply(cfg, s, step).rows && Apply(cfg, s, step).rows[id].status != Scheduled
  {
    hide Eligible, RecordOf, Follows, PhaseAfter, RowRecords, Locked;
  }

  // ----- Along a schedule -----

  lemma {:induction false} AllAlong(cfg: Config, x: Schedule, i: nat)
    requires Proper(cfg, x)
    ensures Inv(cfg, x.state(i))
  {
    hide Inv, Enabled, Apply, Reachable;
    if i == 0 {
      ReachableInv(cfg, x.state(0));
    } else {
      AllAlong(cfg, x, i - 1);
      assert Enabled(cfg, x.state(i - 1), x.step(i - 1));
      StepKeeps(cfg, x.state(i - 1), x.step(i - 1));
    }
  }

  lemma {:induction false} ClockGrows(cfg: Config, x: Schedule, i: nat, j: nat)
    requires Proper(cfg, x) && i <= j
    ensures x.state(i).clock <= x.state(j).clock
  {
    hide Enabled, Apply, Reachable;
    if i < j {
      ClockGrows(cfg, x, i, j - 1);
      assert Enabled(cfg, x.state(j - 1), x.step(j - 1));
      Refinement.StepKeepsClaims(cfg, x.state(j - 1), x.step(j - 1));
    }
  }

  lemma {:induction false} RowsStay(cfg: Config, x: Schedule, id: Id, i: nat, k: nat)
    requires Proper(cfg, x) && i <= k && id in x.state(i).rows
    ensures id in x.state(k).rows
  {
    hide Enabled, Apply, Reachable, Inv;
    if i < k {
      RowsStay(cfg, x, id, i, k - 1);
      AllAlong(cfg, x, k - 1);
      assert Enabled(cfg, x.state(k - 1), x.step(k - 1)) && Apply(cfg, x.state(k - 1), x.step(k - 1)) == x.state(k);
      RowsGrow(cfg, x.state(k - 1), x.step(k - 1));
    }
  }

  /** A time that comes, comes later than now. */
  lemma ComesLater(cfg: Config, x: Schedule, i: nat, time: Time) returns (j: nat)
    requires Proper(cfg, x) && Fair(cfg, x) && x.state(i).clock <= time
    ensures i <= j && x.state(j).clock > time
  {
    hide Enabled, Apply, Reachable, Relieved, Fetched, Ends, Settles;
    assert Passes(x, time);
    j :| x.state(j).clock > time;
    if j < i { ClockGrows(cfg, x, j, i); }
  }

  /** Claims end when each is over some fixed time after it was made. */
  lemma LimitedClaimsEnd(cfg: Config, x: Schedule, d: Time, wid: nat, id: Id, claimedAt: Time, i: nat)
    requires Proper(cfg, x) && Passes(x, claimedAt + d) && forall j: nat :: Timely(x.state(j), Lifetime(d))
    ensures Ends(x, wid, id, claimedAt, i)
  {
    hide Enabled, Apply, Reachable;
    var k: nat :| x.state(k).clock > claimedAt + d;
    var j := if i <= k then k else i;
    ClockGrows(cfg, x, k, j);
    assert Timely(x.state(j), Lifetime(d));
    assert !Works(x.state(j), wid, id, claimedAt);
  }

  // ----- A claim is seen through -----

  lemma {:induction false} WorksUntil(cfg: Config, x: Schedule, n: nat, wid: nat, id: Id, claimedAt: Time,
      i: nat, j: nat)
    returns (k: nat)
    requires Proper(cfg, x) && SeenThrough(x, id, n) && n <= i <= j && Works(x.state(i), wid, id, claimedAt)
    ensures i <= k <= j && (Final(x.state(k), id) || (k == j && Works(x.state(j), wid, id, claimedAt)))
    decreases j - i
  {
    hide Enabled, Apply, Reachable, Works, Final, Abandons;
    k := i;
    if i < j && !Final(x.state(i), id) {
      assert Enabled(cfg, x.state(i), x.step(i)) && !Abandons(x.state(i), x.step(i), id);
      HeldEvolves(cfg, x.state(i), x.step(i), wid, id, claimedAt);
      if Works(x.state(i + 1), wid, id, claimedAt) {
        k := WorksUntil(cfg, x, n, wid, id, claimedAt, i + 1, j);
      } else {
        k := i + 1;
      }
    }
  }

  lemma HeldFinishes(cfg: Config, x: Schedule, n: nat, wid: nat, id: Id, i: nat) returns (k: nat)
    requires Proper(cfg, x) && Fair(cfg, x) && SeenThrough(x, id, n) && n <= i
    requires wid in x.state(i).workers && x.state(i).workers[wid].msg.id == id
    ensures i <= k && Final(x.state(k), id)
  {
    var claimedAt := x.state(i).workers[wid].claimedAt;
    assert Works(x.state(i), wid, id, claimedAt);
    assert Ends(x, wid, id, claimedAt, i);
    var j: nat :| i <= j && !Works(x.state(j), wid, id, claimedAt);
    hide Proper, Fair, Final, SeenThrough;
    k := WorksUntil(cfg, x, n, wid, id, claimedAt, i, j);
  }

  // ----- What a poller queues is claimed -----

  /** On its way: not scheduled any more, and in 'processing' only under a worker. */
  ghost predicate Underway(s: State, id: Id) {
    id in s.rows && s.rows[id].status != Scheduled && !(s.rows[id].status == Processing && id in Idle(s))
  }

  /** What is neither idle nor final is under a worker. */
  lemma BusyIsHeld(s: State, id: Id)
    requires id in s.rows && id !in Idle(s) && !Terminal(s.rows[id].status)
    ensures exists w :: w in s.workers && s.workers[w].msg.id == id
  {
  }

  lemma HeldIsBusy(s: State, wid: nat)
    requires wid in s.workers
    ensures s.workers[wid].msg.id !in Idle(s)
  {
  }

  /** What a worker holds stays held or is final. */
  lemma BusyEvolves(cfg: Config, s: State, step: Step, id: Id)
    requires Inv(cfg, s) && Enabled(cfg, s, step) && !Abandons(s, step, id) && id in s.rows && id !in Idle(s)
    ensures id !in Idle(Apply(cfg, s, step))
  {
    var t := Apply(cfg, s, step);
    hide Inv, Enabled, Apply, Idle, Abandons;
    if Terminal(s.rows[id].status) {
      Guarantees.StepKeepsTerminal(cfg, s, step, id);
    } else {
      BusyIsHeld(s, id);
      var wid :| wid in s.workers && s.workers[wid].msg.id == id;
      HeldEvolves(cfg, s, step, wid, id, s.workers[wid].claimedAt);
      if Works(t, wid, id, s.workers[wid].claimedAt) { HeldIsBusy(t, wid); }
    }
    if id in Idle(t) { IdleIsOpen(t, id); }
  }

  lemma StaysUnderway(cfg: Config, s: State, step: Step, id: Id)
    requires Inv(cfg, s) && Enabled(cfg, s, step) && !Abandons(s, step, id) && Underway(s, id)
    ensures Underway(Apply(cfg, s, step), id)
  {
    hide Inv, Enabled, Apply, Idle, Abandons;
    NeverScheduledAgain(cfg, s, step, id);
    if id in Idle(s) {
      IdleEvolves(cfg, s, step, id);
      if step.Claim? && step.msg.id == id { ClaimHolds(cfg, s, step); }
    } else {
      BusyEvolves(cfg, s, step, id);
    }
  }

  lemma ClaimHolds(cfg: Config, s: State, step: Step)
    requires Enabled(cfg, s, step) && step.Claim?
    ensures var t := Apply(cfg, s, step);
            step.wid in t.workers && t.workers[step.wid].msg.id == step.msg.id && step.msg.id !in Idle(t)
  {
    var t := Apply(cfg, s, step);
    assert t.workers[step.wid].msg == step.msg;
    hide Enabled, Apply;
    HeldIsBusy(t, step.wid);
  }

  lemma {:induction false} UnderwayUntil(cfg: Config, x: Schedule, n: nat, id: Id, i: nat, k: nat)
    requires Proper(cfg, x) && SeenThrough(x, id, n) && n <= i <= k && Underway(x.state(i), id)
    ensures Underway(x.state(k), id)
  {
    hide Enabled, Apply, Reachable, Underway, Inv, Abandons;
    if i < k {
      UnderwayUntil(cfg, x, n, id, i, k - 1);
      AllAlong(cfg, x, k - 1);
      assert Enabled(cfg, x.state(k - 1), x.step(k - 1)) && !Abandons(x.state(k - 1), x.step(k - 1), id);
      StaysUnderway(cfg, x.state(k - 1), x.step(k - 1), id);
    }
  }

  /** A worker is on the row now, or the row is final now or claimed in this step. */
  ghost predicate Served(x: Schedule, id: Id, k: nat) {
    || (x.step(k).Claim? && x.step(k).msg.id == id)
    || (id in x.state(k).rows && id !in Idle(x.state(k)))
  }

  lemma ServedFinishes(cfg: Config, x: Schedule, n: nat, id: Id, i: nat) returns (k: nat)
    requires Proper(cfg, x) && Fair(cfg, x) && SeenThrough(x, id, n) && n <= i && Served(x, id, i)
    ensures i <= k && Final(x.state(k), id)
  {
    assert Enabled(cfg, x.state(i), x.step(i)) && Apply(cfg, x.state(i), x.step(i)) == x.state(i + 1);
    hide Fair, Proper, Idle, Enabled, Apply, SeenThrough;
    if x.step(i).Claim? && x.step(i).msg.id == id {
      ClaimHolds(cfg, x.state(i), x.step(i));
      k := HeldFinishes(cfg, x, n, x.step(i).wid, id, i + 1);
    } else if Terminal(x.state(i).rows[id].status) {
      k := i;
    } else {
      BusyIsHeld(x.state(i), id);
      var wid :| wid in x.state(i).workers && x.state(i).workers[wid].msg.id == id;
      k := HeldFinishes(cfg, x, n, wid, id, i);
    }
  }

  lemma RequeuedFinishes(cfg: Config, x: Schedule, n: nat, id: Id, i: nat) returns (k: nat)
    requires Proper(cfg, x) && Fair(cfg, x) && SeenThrough(x, id, n) && n <= i
    requires Requeues(x, id, i) && id in Idle(x.state(i))
    ensures i <= k && Final(x.state(k), id)
  {
    assert Fetched(x, id, i);
    var f: nat :| i < f && Tries(x, id, f);
    NextIsUnderway(cfg, x, id, i);
    UnderwayUntil(cfg, x, n, id, i + 1, f);
    hide Fair, Proper, Requeues, SeenThrough, Locked, Idle;
    if !Served(x, id, f) { IdleIsOpen(x.state(f), id); }
    k := ServedFinishes(cfg, x, n, id, f);
  }

  lemma NextIsUnderway(cfg: Config, x: Schedule, id: Id, i: nat)
    requires Proper(cfg, x) && Requeues(x, id, i) && id in Idle(x.state(i))
    ensures Underway(x.state(i + 1), id)
  {
    assert Enabled(cfg, x.state(i), x.step(i)) && Apply(cfg, x.state(i), x.step(i)) == x.state(i + 1);
    IdleIsOpen(x.state(i), id);
    hide Idle, Reachable;
  }

  // ----- What is idle is requeued or served -----

  /** In this step an idle row is claimed, finished, requeued by a poller or queued by its request. */
  ghost predicate MovesAt(x: Schedule, id: Id, m: nat) {
    && id in Idle(x.state(m)) && id in x.state(m).rows
    && Moves(x.state(m), x.state(m + 1), x.step(m), id)
  }

  lemma {:induction false} IdleUntil(cfg: Config, x: Schedule, id: Id, i: nat, k: nat) returns (m: nat)
    requires Proper(cfg, x) && i <= k && id in Idle(x.state(i))
    ensures i <= m <= k && id in x.state(i).rows && id in x.state(m).rows && x.state(m).rows[id] == x.state(i).rows[id]
    ensures MovesAt(x, id, m) || (m == k && id in Idle(x.state(k)))
    decreases k - i
  {
    IdleIsOpen(x.state(i), id);
    hide Enabled, Apply, Reachable, Inv, Idle, Moves;
    m := i;
    if i < k && !MovesAt(x, id, i) {
      AllAlong(cfg, x, i);
      assert Enabled(cfg, x.state(i), x.step(i)) && Apply(cfg, x.state(i), x.step(i)) == x.state(i + 1);
      IdleEvolves(cfg, x.state(i), x.step(i), id);
      m := IdleUntil(cfg, x, id, i + 1, k);
    }
  }

  /** By this time an unchanged row is due for one of the pollers. */
  function DueAt(cfg: Config, r: Row): Time {
    var wait := if cfg.pendingAfter < cfg.inflightAfter then cfg.inflightAfter else cfg.pendingAfter;
    var stuck := r.updatedAt + wait;
    if r.draft.scheduledAt.Some? && r.draft.scheduledAt.value > stuck then r.draft.scheduledAt.value else stuck
  }

  lemma DueIsStuck(cfg: Config, s: State, id: Id)
    requires Inv(cfg, s) && id in Idle(s) && id in s.rows && s.clock > DueAt(cfg, s.rows[id])
    ensures Stuck(cfg, s, id)
  {
    hide Keyed, Locks, Picks, Records, Envelopes, Announced, Holders, Asked, Answered, Counted,
      EarnedRows, EarnedPhases, WrittenOnce;
  }

  /** An idle row comes to a step that moves it, or is still idle when a poller commits it. */
  lemma IdleMoves(cfg: Config, x: Schedule, id: Id, i: nat) returns (m: nat)
    requires Proper(cfg, x) && Fair(cfg, x) && id in Idle(x.state(i))
    ensures i <= m && id in Idle(x.state(m)) && id in x.state(i).rows && id in x.state(m).rows
    ensures x.state(m).rows[id] == x.state(i).rows[id] && (MovesAt(x, id, m) || Requeues(x, id, m))
  {
    IdleIsOpen(x.state(i), id);
    var due := DueAt(cfg, x.state(i).rows[id]);
    var time := if due < x.state(i).clock then x.state(i).clock else due;
    var j := ComesLater(cfg, x, i, time);
    assert Relieved(cfg, x, id, j);
    var k: nat :| j <= k && (Requeues(x, id, k) || !Stuck(cfg, x.state(k), id));
    hide Fair, Requeues, Stuck, DueAt, MovesAt;
    m := IdleUntil(cfg, x, id, i, k);
    if !MovesAt(x, id, m) {
      ClockGrows(cfg, x, j, k);
      AllAlong(cfg, x, k);
      hide Proper, Inv;
      DueIsStuck(cfg, x.state(k), id);
    } else {
      MovesAreIdle(x, id, m);
    }
  }

  lemma MovesAreIdle(x: Schedule, id: Id, m: nat)
    requires MovesAt(x, id, m)
    ensures id in Idle(x.state(m))
  {
  }

  lemma {:induction false} IdleFinishes(cfg: Config, x: Schedule, n: nat, id: Id, i: nat) returns (k: nat)
    requires Proper(cfg, x) && Fair(cfg, x) && SeenThrough(x, id, n) && n <= i && id in Idle(x.state(i))
    ensures i <= k && Final(x.state(k), id)
    decreases if id in x.state(i).rows && x.state(i).rows[id].status == Pending then 1 else 0
  {
    var m := IdleMoves(cfg, x, id, i);
    hide Proper, Fair, Idle, SeenThrough;
    if Requeues(x, id, m) {
      k := RequeuedFinishes(cfg, x, n, id, m);
    } else if x.step(m).Claim? && x.step(m).msg.id == id {
      k := ServedFinishes(cfg, x, n, id, m);
    } else if Final(x.state(m + 1), id) {
      k := m + 1;
    } else {
      k := IdleFinishes(cfg, x, n, id, m + 1);
    }
  }

  /** Every notification is finished, on every such schedule, from wherever it is looked at. */
  lemma EveryOneFinishes(cfg: Config, x: Schedule, id: Id, i: nat) returns (k: nat)
    requires Proper(cfg, x) && Fair(cfg, x) && id in x.state(i).rows
    ensures i <= k && id in x.state(k).rows && x.state(k).rows[id].status in {Sent, Dead, Cancelled}
  {
    assert Settles(x, id);
    var n: nat :| SeenThrough(x, id, n);
    hide Proper, Fair, Idle, SeenThrough;
    var from := if n < i then i else n;
    RowsStay(cfg, x, id, i, from);
    if id in Idle(x.state(from)) {
      k := IdleFinishes(cfg, x, n, id, from);
    } else {
      k := ServedFinishes(cfg, x, n, id, from);
    }
  }

  /** And stays so. */
  lemma {:induction false} StaysFinal(cfg: Config, x: Schedule, id: Id, i: nat, k: nat)
    requires Proper(cfg, x) && i <= k && Final(x.state(i), id)
    ensures Final(x.state(k), id)
  {
    hide Enabled, Apply, Reachable, Inv;
    if i < k {
      StaysFinal(cfg, x, id, i, k - 1);
      AllAlong(cfg, x, k - 1);
      assert Enabled(cfg, x.state(k - 1), x.step(k - 1)) && Apply(cfg, x.state(k - 1), x.step(k - 1)) == x.state(k);
      Guarantees.StepKeepsTerminal(cfg, x.state(k - 1), x.step(k - 1), id);
    }
  }

  lemma {:induction false} TheseFinish(cfg: Config, x: Schedule, ids: set<Id>, i: nat) returns (k: nat)
    requires Proper(cfg, x) && Fair(cfg, x) && ids <= x.state(i).rows.Keys
    ensures i <= k && forall id | id in ids :: Final(x.state(k), id)
  {
    hide Proper, Fair;
    k := i;
    if ids != {} {
      var id :| id in ids;
      var a := EveryOneFinishes(cfg, x, id, i);
      var b := TheseFinish(cfg, x, ids - {id}, i);
      k := if a < b then b else a;
      StaysFinal(cfg, x, id, a, k);
      forall other | other in ids - {id} ensures Final(x.state(k), other) { StaysFinal(cfg, x, other, b, k); }
      assert forall other | other in ids :: other == id || other in ids - {id};
    }
  }

  /** On every schedule that keeps going, everything there is at one time is finished at a later one,
      and from then on. */
  lemma EverythingFinishes(cfg: Config, x: Schedule, i: nat) returns (k: nat)
    // a run of the protocol
    requires Reachable(cfg, x.state(0))
    requires forall n: nat :: Enabled(cfg, x.state(n), x.step(n)) && Apply(cfg, x.state(n), x.step(n)) == x.state(n + 1)
    // that is fair
    requires forall time :: Passes(x, time)
    requires forall wid, id, claimedAt, n: nat :: Ends(x, wid, id, claimedAt, n)
    requires forall id :: Settles(x, id)
    requires forall id, n: nat :: Relieved(cfg, x, id, n)
    requires forall id, n: nat | Requeues(x, id, n) :: Fetched(x, id, n)
    ensures i <= k && forall id, j: nat | id in x.state(i).rows && k <= j ::
              id in x.state(j).rows && x.state(j).rows[id].status in {Sent, Dead, Cancelled}
  {
    assert Proper(cfg, x) && Fair(cfg, x);
    hide Proper, Fair;
    k := TheseFinish(cfg, x, x.state(i).rows.Keys, i);
    forall id, j: nat | id in x.state(i).rows && k <= j ensures Final(x.state(j), id) {
      StaysFinal(cfg, x, id, k, j);
    }
  }

  /** What each part of fairness says of the states and steps of a schedule. */
  lemma FairnessMeans(cfg: Config, x: Schedule, time: Time, wid: nat, id: Id, claimedAt: Time, i: nat)
    ensures Passes(x, time) <==> exists k: nat :: x.state(k).clock > time
    ensures Ends(x, wid, id, claimedAt, i) <==>
              exists j: nat :: i <= j
                && !(wid in x.state(j).workers && x.state(j).workers[wid].msg.id == id
                     && x.state(j).workers[wid].claimedAt == claimedAt)
    ensures SeenThrough(x, id, i) <==>
              forall j: nat | i <= j && (x.step(j).Crash? || (x.step(j).DeadLetter? && !x.step(j).ok))
                && x.step(j).wid in x.state(j).workers :: x.state(j).workers[x.step(j).wid].msg.id != id
    ensures Settles(x, id) <==> exists n: nat :: SeenThrough(x, id, n)
    ensures Requeues(x, id, i) <==>
              x.step(i).Commit? && x.step(i).tid in x.state(i).txs && id in x.state(i).txs[x.step(i).tid].picked
    ensures Relieved(cfg, x, id, i) <==> exists k: nat :: i <= k && (Requeues(x, id, k) || !Stuck(cfg, x.state(k), id))
    ensures Fetched(x, id, i) <==> exists k: nat :: i < k && Tries(x, id, k)
    ensures Tries(x, id, i) <==>
              && id in x.state(i).rows && (forall t | t in x.state(i).txs :: id !in x.state(i).txs[t].picked)
              && (x.state(i).rows[id].status in {Pending, Queued} ==> x.step(i).Claim? && x.step(i).msg.id == id)
  {
    hide Stuck;
    assert SeenThrough(x, id, i) <==> forall j: nat | i <= j :: !Abandons(x.state(j), x.step(j), id);
    assert Ends(x, wid, id, claimedAt, i) <==> exists j: nat :: i <= j && !Works(x.state(j), wid, id, claimedAt);
  }

  lemma FairSchedule(cfg: Config, x: Schedule)
    ensures Proper(cfg, x) <==>
              && Reachable(cfg, x.state(0))
              && forall n: nat ::
                   Enabled(cfg, x.state(n), x.step(n)) && Apply(cfg, x.state(n), x.step(n)) == x.state(n + 1)
    ensures Fair(cfg, x) <==>
              && (forall t :: Passes(x, t)) && (forall w, d, c, n: nat :: Ends(x, w, d, c, n))
              && (forall d :: Settles(x, d)) && (forall d, n: nat :: Relieved(cfg, x, d, n))
              && (forall d, n: nat | Requeues(x, d, n) :: Fetched(x, d, n))
  {
    hide Reachable, Enabled, Apply, Passes, Ends, Settles, Relieved, Requeues, Fetched;
  }

  /** A row is stuck when no worker is on it and a poller's query would return it. */
  lemma StuckIff(cfg: Config, s: State, id: Id)
    ensures Stuck(cfg, s, id) <==>
              && id in s.rows && (forall w | w in s.workers :: s.workers[w].msg.id != id)
              && match s.rows[id].status
                 case Scheduled =>
                   s.rows[id].draft.scheduledAt.Some? && s.rows[id].draft.scheduledAt.value <= s.clock
                 case Pending => s.rows[id].updatedAt < s.clock - cfg.pendingAfter
                 case Queued | Processing => s.rows[id].updatedAt < s.clock - cfg.inflightAfter
                 case _ => false
  {
    IdleMeans(s);
  }

  // ----- Such schedules exist -----

  /** Nothing is left to do, and time passes. */
  lemma QuietIsFair(cfg: Config, s: State) returns (x: Schedule)
    requires Reachable(cfg, s) && s.workers == map[] && Unfinished(s.rows) == {}
    ensures Proper(cfg, x) && Fair(cfg, x) && x.state(0) == s
  {
    x := Schedule((i: nat) => s.(clock := s.clock + i), (i: nat) => Advance(s.clock + i + 1));
    assert x.state(0) == s;
    hide Reachable;
    forall time ensures Passes(x, time) {
      var i: nat := if time < s.clock then 0 else time - s.clock + 1;
      assert x.state(i).clock > time;
    }
    forall id, i: nat ensures Relieved(cfg, x, id, i) {
      assert Idle(x.state(i)) == {};
      assert !Stuck(cfg, x.state(i), id);
    }
    forall wid, id, claimedAt, i: nat ensures Ends(x, wid, id, claimedAt, i) {
      assert !Works(x.state(i), wid, id, claimedAt);
    }
    forall id ensures Settles(x, id) {
      assert SeenThrough(x, id, 0);
    }
  }

  /** The schedule that takes this step first. */
  function Before(s: State, step: Step, y: Schedule): Schedule {
    Schedule((i: nat) => if i == 0 then s else y.state(i - 1), (i: nat) => if i == 0 then step else y.step(i - 1))
  }

  lemma BeforeIsProper(cfg: Config, s: State, step: Step, y: Schedule)
    requires Reachable(cfg, s) && Proper(cfg, y) && Enabled(cfg, s, step) && Apply(cfg, s, step) == y.state(0)
    ensures Proper(cfg, Before(s, step, y))
  {
    hide Reachable, Enabled, Apply;
    var x := Before(s, step, y);
    forall i: nat ensures Enabled(cfg, x.state(i), x.step(i)) && Apply(cfg, x.state(i), x.step(i)) == x.state(i + 1) {
      if i > 0 { assert Enabled(cfg, y.state(i - 1), y.step(i - 1)); }
    }
  }

  lemma BeforePasses(s: State, step: Step, y: Schedule, time: Time)
    requires Passes(y, time)
    ensures Passes(Before(s, step, y), time)
  {
    var i: nat :| y.state(i).clock > time;
    assert Before(s, step, y).state(i + 1) == y.state(i);
  }

  lemma BeforeEnds(s: State, step: Step, y: Schedule, wid: nat, id: Id, claimedAt: Time, i: nat)
    requires Ends(y, wid, id, claimedAt, if i > 0 then i - 1 else 0)
    ensures Ends(Before(s, step, y), wid, id, claimedAt, i)
  {
    hide Works;
    var j: nat :| (if i > 0 then i - 1 else 0) <= j && !Works(y.state(j), wid, id, claimedAt);
    assert Before(s, step, y).state(j + 1) == y.state(j);
    assert !Works(Before(s, step, y).state(j + 1), wid, id, claimedAt);
  }

  lemma BeforeSeesThrough(s: State, step: Step, y: Schedule, id: Id)
    requires Settles(y, id)
    ensures Settles(Before(s, step, y), id)
  {
    hide Abandons;
    var n: nat :| SeenThrough(y, id, n);
    var x := Before(s, step, y);
    forall i: nat | n + 1 <= i ensures !Abandons(x.state(i), x.step(i), id) {
      assert x.state(i) == y.state(i - 1) && x.step(i) == y.step(i - 1);
    }
    assert SeenThrough(x, id, n + 1);
  }

  lemma BeforeRelieves(cfg: Config, s: State, step: Step, y: Schedule, id: Id, i: nat)
    requires Relieved(cfg, y, id, if i > 0 then i - 1 else 0)
    ensures Relieved(cfg, Before(s, step, y), id, i)
  {
    hide Stuck;
    var x, j := Before(s, step, y), if i > 0 then i - 1 else 0;
    var k: nat :| j <= k && (Requeues(y, id, k) || !Stuck(cfg, y.state(k), id));
    assert x.state(k + 1) == y.state(k) && x.step(k + 1) == y.step(k) && i <= k + 1;
    assert Requeues(x, id, k + 1) <==> Requeues(y, id, k);
  }

  lemma BeforeFetches(s: State, step: Step, y: Schedule, id: Id, i: nat)
    requires i > 0 && (Requeues(y, id, i - 1) ==> Fetched(y, id, i - 1))
    ensures Requeues(Before(s, step, y), id, i) ==> Fetched(Before(s, step, y), id, i)
  {
    hide Locked;
    var x := Before(s, step, y);
    assert x.state(i) == y.state(i - 1) && x.step(i) == y.step(i - 1);
    if Requeues(x, id, i) {
      var k: nat :| i - 1 < k && Tries(y, id, k);
      assert x.state(k + 1) == y.state(k) && x.step(k + 1) == y.step(k);
      assert Tries(x, id, k + 1);
    }
  }

  lemma BeforeIsFair(cfg: Config, s: State, step: Step, y: Schedule)
    requires Fair(cfg, y)
    requires forall id | Requeues(Before(s, step, y), id, 0) :: Fetched(Before(s, step, y), id, 0)
    ensures Fair(cfg, Before(s, step, y))
  {
    hide Relieved, Fetched, Requeues, Passes, Ends, Settles;
    var x := Before(s, step, y);
    forall time ensures Passes(x, time) { BeforePasses(s, step, y, time); }
    forall wid, id, claimedAt, i: nat ensures Ends(x, wid, id, claimedAt, i) {
      assert Ends(y, wid, id, claimedAt, if i > 0 then i - 1 else 0);
      BeforeEnds(s, step, y, wid, id, claimedAt, i);
    }
    forall id ensures Settles(x, id) { BeforeSeesThrough(s, step, y, id); }
    forall id, i: nat ensures Relieved(cfg, x, id, i) {
      assert Relieved(cfg, y, id, if i > 0 then i - 1 else 0);
      BeforeRelieves(cfg, s, step, y, id, i);
    }
    forall id, i: nat | Requeues(x, id, i) ensures Fetched(x, id, i) {
      if i > 0 {
        assert Requeues(y, id, i - 1) ==> Fetched(y, id, i - 1);
        BeforeFetches(s, step, y, id, i);
      }
    }
  }

  /** Every run that ends with everything finished is the beginning of such a schedule, whatever
      crashed in it. */
  lemma {:induction false} FinishedRunIsFair(cfg: Config, s: State, steps: seq<Step>) returns (x: Schedule)
    requires Reachable(cfg, s) && Valid(cfg, s, steps)
    requires var t := Run(cfg, s, steps); t.workers == map[] && t.txs == map[] && Unfinished(t.rows) == {}
    ensures Proper(cfg, x) && Fair(cfg, x) && x.state(0) == s && x.state(|steps|) == Run(cfg, s, steps)
    ensures forall i | 0 <= i < |steps| :: x.step(i) == steps[i]
    decreases |steps|
  {
    hide Reachable, Enabled, Apply, Proper, Fair;
    if steps == [] {
      x := QuietIsFair(cfg, s);
    } else {
      var next := Apply(cfg, s, steps[0]);
      Runs.ReachableStep(cfg, s, steps[0]);
      var y := FinishedRunIsFair(cfg, next, steps[1..]);
      x := Before(s, steps[0], y);
      BeforeIsProper(cfg, s, steps[0], y);
      assert x.state(|steps|) == y.state(|steps| - 1);
      forall id | Requeues(x, id, 0) ensures Fetched(x, id, 0) { FinishedIsFetched(cfg, x, id, |steps|); }
      BeforeIsFair(cfg, s, steps[0], y);
    }
  }

  lemma FinishedIsFetched(cfg: Config, x: Schedule, id: Id, n: nat)
    requires Proper(cfg, x) && n > 0 && x.state(n).txs == map[] && Unfinished(x.state(n).rows) == {}
    requires Requeues(x, id, 0)
    ensures Fetched(x, id, 0)
  {
    hide Proper, Inv, Unfinished;
    AllAlong(cfg, x, 0);
    PickedIsRow(cfg, x.state(0), x.step(0).tid, id);
    RowsStay(cfg, x, id, 0, n);
    FinalIsTried(x, id, n);
  }

  lemma PickedIsRow(cfg: Config, s: State, tid: nat, id: Id)
    requires Inv(cfg, s) && tid in s.txs && id in s.txs[tid].picked
    ensures id in s.rows
  {
    PickedIsHeld(s.rows, s.txs, tid);
  }

  lemma FinalIsTried(x: Schedule, id: Id, n: nat)
    requires x.state(n).txs == map[] && id in x.state(n).rows && Unfinished(x.state(n).rows) == {}
    ensures Tries(x, id, n)
  {
    assert id !in Unfinished(x.state(n).rows);
  }
}
