/** When the reaper publishes a pending row that is in the log already. */
module Republishing {
  import opened Domain
  import opened Table
  import opened Protocol
  import opened Invariants
  import opened Preservation
  import opened Runs

  // The reaper takes a pending row for one that never reached Kafka, so that publishing it again
  // cannot duplicate it. That holds in all runs of a given discipline if and only if failed writes
  // leave nothing in the log, no process dies between its publish and its update, and the API marks
  // what it published within the reaper's grace period.

  /** Whether a failed write may have reached the log in part, whether a process may die between its
      publish and the update after it, and how long after a row's update its request takes to mark it. */
  datatype Discipline = Discipline(partialWrites: bool, lostUpdates: bool, grace: Time)

  ghost predicate Allows(d: Discipline, s: State, step: Step) {
    match step
    case Publish(_, ok, written) => d.partialWrites || ok || written == {}
    case Republish(_, ok, written) => d.partialWrites || ok || written == {}
    case Abandon(rid) => d.lostUpdates || (rid in s.requests && !s.requests[rid].Published?)
    case Rollback(tid) => d.lostUpdates || (tid in s.txs && !s.txs[tid].published)
    case _ => true
  }

  /** No request is late with the rows it published. */
  ghost predicate Prompt(d: Discipline, s: State) {
    forall q, id | q in s.requests && s.requests[q].Published? && id in s.requests[q].ids && id in s.rows
      :: s.rows[id].status == Pending ==> s.clock <= s.rows[id].updatedAt + d.grace
  }

  ghost predicate Disciplined(cfg: Config, s: State, steps: seq<Step>, d: Discipline)
    decreases |steps|
  {
    && Prompt(d, s)
    && (steps != [] ==>
          Enabled(cfg, s, steps[0]) && Allows(d, s, steps[0])
              && Disciplined(cfg, Apply(cfg, s, steps[0]), steps[1..], d))
  }

  ghost predicate ReachableBy(cfg: Config, s: State, d: Discipline) {
    exists steps :: Valid(cfg, INIT, steps) && Disciplined(cfg, INIT, steps, d) && Run(cfg, INIT, steps) == s
  }

  /** The reaper selects no pending row whose message is in the log already. */
  ghost predicate NoDuplicates(cfg: Config, d: Discipline) {
    forall s, step | ReachableBy(cfg, s, d) && Enabled(cfg, s, step) && step.Select? && step.reap ::
        NoneLogged(s, step.ids)
  }

  ghost predicate NoneLogged(s: State, ids: set<Id>) {
    forall id | id in ids && id in s.rows && s.rows[id].status == Pending :: RecordOf(s.rows[id].draft) !in s.published
  }

  // ----- What the discipline keeps -----

  /** Someone who published the pending row is about to update it. */
  ghost predicate Minded(requests: Requests, txs: Txs, id: Id) {
    || (exists q :: q in requests && requests[q].Published? && id in requests[q].ids)
    || (exists t :: t in txs && txs[t].published && id in txs[t].picked)
  }

  ghost predicate AllMinded(s: State) {
    forall id | id in s.rows && s.rows[id].status == Pending && RecordOf(s.rows[id].draft) in s.published ::
      Minded(s.requests, s.txs, id)
  }

  /** Nobody who minds a pending row goes, and no row becomes pending or published. */
  lemma QuietMinds(s: State, t: State)
    requires AllMinded(s) && t.published == s.published
    requires forall id | id in t.rows && t.rows[id].status == Pending && RecordOf(t.rows[id].draft) in t.published ::
               id in s.rows && s.rows[id].status == Pending && t.rows[id].draft == s.rows[id].draft
               && (Minded(s.requests, s.txs, id) ==> Minded(t.requests, t.txs, id))
    ensures AllMinded(t)
  {
  }

  /** A message in the log belongs to a row that was there. */
  lemma LoggedIsOld(s: State, rows: Rows)
    requires Records(s.rows, s.clock, s.published) && WellKeyed(rows)
    ensures forall id | id in rows && RecordOf(rows[id].draft) in s.published :: id in s.rows
  {
    forall id | id in rows && RecordOf(rows[id].draft) in s.published ensures id in s.rows {
      assert Genuine(s.rows, s.clock, RecordOf(rows[id].draft));
    }
  }

  lemma MindersStay(requests: Requests, requests': Requests, txs: Txs, txs': Txs, id: Id)
    requires Minded(requests, txs, id)
    requires forall q | q in requests && requests[q].Published? && id in requests[q].ids ::
        q in requests' && requests'[q] == requests[q]
    requires forall t | t in txs && txs[t].published && id in txs[t].picked :: t in txs' && txs'[t] == txs[t]
    ensures Minded(requests', txs', id)
  {
    if q :| q in requests && requests[q].Published? && id in requests[q].ids {
      assert q in requests' && requests'[q].Published? && id in requests'[q].ids;
    } else {
      var t :| t in txs && txs[t].published && id in txs[t].picked;
      assert t in txs' && txs'[t].published && id in txs'[t].picked;
    }
  }

  lemma InsertMinds(cfg: Config, s: State, rid: nat, single: bool, ds: seq<Draft>)
    requires Inv(cfg, s) && CanInsert(s, rid, single, ds) && AllMinded(s)
    ensures AllMinded(DoInsert(s, rid, single, ds))
  {
    InsertAdds(s, rid, single, ds);
    var t := DoInsert(s, rid, single, ds);
    assert rid !in s.requests;
    hide DoInsert, CanInsert, Tallied, Locks, Picks, Envelopes, Announced, Holders, Asked, Answered, Counted,
      EarnedRows, EarnedPhases, WrittenOnce, Records, RecordOf;
    LoggedIsOld(s, t.rows);
    hide Keyed, WellKeyed, Inv;
    forall id | Minded(s.requests, s.txs, id) ensures Minded(t.requests, t.txs, id) {
      MindersStay(s.requests, t.requests, s.txs, t.txs, id);
    }
    hide Minded;
    QuietMinds(s, t);
  }

  lemma RecordNamesDraft(ds: set<Draft>, ids: set<Id>, d: Draft)
    requires RecordOf(d) in RecordsOf(ds, ids)
    ensures d.id in IdsOf(ds) && d.id in ids
  {
    var e :| e in ds && e.id in ids && RecordOf(e) == RecordOf(d);
    assert MessageOf(e).id == MessageOf(d).id;
  }

  lemma RecordNamesRow(rows: Rows, ids: set<Id>, d: Draft)
    requires RecordOf(d) in RowRecords(rows, ids) && forall id | id in rows :: rows[id].draft.id == id
    ensures d.id in rows && d.id in ids
  {
    var id :| id in rows && id in ids && RecordOf(rows[id].draft) == RecordOf(d);
    assert MessageOf(rows[id].draft).id == MessageOf(d).id;
  }

  /** Whoever publishes minds the rows it published, until it updates them. */
  lemma PublishMinds(s: State, rid: nat, ok: bool, written: set<Id>)
    requires CanPublish(s, rid, ok, written) && (ok || written == {}) && AllMinded(s) && WellKeyed(s.rows)
    ensures AllMinded(DoPublish(s, rid, ok, written))
  {
    var t, pending := DoPublish(s, rid, ok, written), PendingOf(s.requests[rid].added);
    forall id | id in t.rows && t.rows[id].status == Pending && RecordOf(t.rows[id].draft) in t.published
      ensures Minded(t.requests, t.txs, id)
    {
      if RecordOf(t.rows[id].draft) in s.published {
        MindersStay(s.requests, t.requests, s.txs, t.txs, id);
      } else {
        RecordNamesDraft(pending, written, t.rows[id].draft);
        assert t.requests[rid] == Published(IdsOf(pending));
      }
    }
  }

  lemma RepublishMinds(s: State, tid: nat, ok: bool, written: set<Id>)
    requires CanRepublish(s, tid, ok, written) && (ok || written == {}) && AllMinded(s)
    requires WellKeyed(s.rows) && Locks(s.rows, s.txs)
    ensures AllMinded(DoRepublish(s, tid, ok, written))
  {
    var t, picked := DoRepublish(s, tid, ok, written), s.txs[tid].picked;
    PickedIsHeld(s.rows, s.txs, tid);
    hide Locks, RecordOf;
    forall id | id in t.rows && t.rows[id].status == Pending && RecordOf(t.rows[id].draft) in t.published
      ensures Minded(t.requests, t.txs, id)
    {
      if RecordOf(t.rows[id].draft) in s.published {
        MindersStay(s.requests, t.requests, s.txs, t.txs, id);
      } else {
        RecordNamesRow(picked, written, t.rows[id].draft);
        assert t.txs[tid].published && id in t.txs[tid].picked;
      }
    }
  }

  /** The other steps publish nothing and make no row pending. */
  lemma OthersPublishNothing(cfg: Config, s: State, step: Step, id: Id)
    requires Enabled(cfg, s, step) && !step.Insert? && !step.Publish? && !step.Republish?
    requires var t := Apply(cfg, s, step); id in t.rows && t.rows[id].status == Pending
    ensures var t := Apply(cfg, s, step);
            t.published == s.published && id in s.rows && s.rows[id].status == Pending
                && t.rows[id].draft == s.rows[id].draft
  {
    hide Eligible, RecordOf, Follows, PhaseAfter, Locked;
  }

  /** And those that mind a pending row stay, unless they die between publish and update. */
  lemma OthersKeepMinders(cfg: Config, s: State, step: Step, d: Discipline, id: Id)
    requires Enabled(cfg, s, step) && !step.Insert? && !step.Publish? && !step.Republish?
    requires !d.lostUpdates && Allows(d, s, step) && Minded(s.requests, s.txs, id)
    requires var t := Apply(cfg, s, step);
             id in t.rows && t.rows[id].status == Pending && id in s.rows && s.rows[id].status == Pending
    ensures Minded(Apply(cfg, s, step).requests, Apply(cfg, s, step).txs, id)
  {
    hide Eligible, RecordOf, Follows, PhaseAfter, Locked, Minded;
    var t := Apply(cfg, s, step);
    MindersStay(s.requests, t.requests, s.txs, t.txs, id);
  }

  lemma StepMinds(cfg: Config, s: State, step: Step, d: Discipline)
    requires Inv(cfg, s) && Enabled(cfg, s, step) && Allows(d, s, step) && AllMinded(s)
    requires !d.partialWrites && !d.lostUpdates
    ensures AllMinded(Apply(cfg, s, step))
  {
    if step.Insert? {
      InsertMinds(cfg, s, step.rid, step.single, step.drafts);
    } else if step.Publish? {
      PublishMinds(s, step.rid, step.ok, step.written);
    } else if step.Republish? {
      RepublishMinds(s, step.tid, step.ok, step.written);
    } else {
      var t := Apply(cfg, s, step);
      hide Inv, Enabled, Apply, Minded, RecordOf, Allows;
      forall id | id in t.rows && t.rows[id].status == Pending && RecordOf(t.rows[id].draft) in t.published
        ensures Minded(t.requests, t.txs, id)
      {
        OthersPublishNothing(cfg, s, step, id);
        OthersKeepMinders(cfg, s, step, d, id);
      }
    }
  }

  lemma {:induction false} RunMinds(cfg: Config, s: State, steps: seq<Step>, d: Discipline)
    requires Inv(cfg, s) && AllMinded(s) && Valid(cfg, s, steps) && Disciplined(cfg, s, steps, d)
    requires !d.partialWrites && !d.lostUpdates
    ensures var t := Run(cfg, s, steps); Inv(cfg, t) && AllMinded(t) && Prompt(d, t)
    decreases |steps|
  {
    hide Inv, Enabled, Apply, Allows, Prompt, AllMinded;
    if steps != [] {
      StepKeeps(cfg, s, steps[0]);
      StepMinds(cfg, s, steps[0], d);
      RunMinds(cfg, Apply(cfg, s, steps[0]), steps[1..], d);
    }
  }

  /** A minded row is locked, or its request is still in its time. */
  lemma MindedIsSpared(cfg: Config, s: State, d: Discipline, tid: nat, now: Time, stamp: Time, ids: set<Id>)
    requires AllMinded(s) && Prompt(d, s) && d.grace <= cfg.pendingAfter
    requires CanSelect(cfg, s, tid, true, now, stamp, ids)
    ensures NoneLogged(s, ids)
  {
    hide RecordOf;
    forall id | id in ids && id in s.rows && s.rows[id].status == Pending
        ensures RecordOf(s.rows[id].draft) !in s.published {
      assert !Locked(s.txs, id) && Eligible(KindOf(cfg, true), s.rows[id], now);
      assert !Minded(s.requests, s.txs, id);
    }
  }

  lemma DisciplineSuffices(cfg: Config, s: State, step: Step, d: Discipline)
    requires ReachableBy(cfg, s, d) && Enabled(cfg, s, step) && step.Select? && step.reap
    requires !d.partialWrites && !d.lostUpdates && d.grace <= cfg.pendingAfter
    ensures NoneLogged(s, step.ids)
  {
    assert CanSelect(cfg, s, step.tid, true, step.now, step.stamp, step.ids);
    NothingToMind(cfg);
    hide Inv, AllMinded, Prompt, NoneLogged, Enabled, Apply, Allows, CanSelect;
    var steps :| Valid(cfg, INIT, steps) && Disciplined(cfg, INIT, steps, d) && Run(cfg, INIT, steps) == s;
    RunMinds(cfg, INIT, steps, d);
    MindedIsSpared(cfg, s, d, step.tid, step.now, step.stamp, step.ids);
  }

  lemma NothingToMind(cfg: Config)
    ensures Inv(cfg, INIT) && AllMinded(INIT)
  {
  }

  // ----- Without it, a pending row is published twice -----

  lemma {:induction false} DisciplinedGrows(cfg: Config, s: State, steps: seq<Step>, step: Step, d: Discipline)
    requires Valid(cfg, s, steps) && Disciplined(cfg, s, steps, d)
    requires Enabled(cfg, Run(cfg, s, steps), step) && Allows(d, Run(cfg, s, steps), step)
    requires Prompt(d, Apply(cfg, Run(cfg, s, steps), step))
    ensures Disciplined(cfg, s, steps + [step], d)
    decreases |steps|
  {
    hide Enabled, Apply, Prompt, Allows;
    if steps == [] {
      assert [step][1..] == [] && steps + [step] == [step];
    } else {
      DisciplinedGrows(cfg, Apply(cfg, s, steps[0]), steps[1..], step, d);
      assert (steps + [step])[1..] == steps[1..] + [step];
    }
  }

  lemma ByStep(cfg: Config, s: State, step: Step, d: Discipline)
    requires ReachableBy(cfg, s, d) && Enabled(cfg, s, step) && Allows(d, s, step) && Prompt(d, Apply(cfg, s, step))
    ensures ReachableBy(cfg, Apply(cfg, s, step), d)
  {
    hide Enabled, Apply, Prompt, Allows;
    var steps :| Valid(cfg, INIT, steps) && Disciplined(cfg, INIT, steps, d) && Run(cfg, INIT, steps) == s;
    RunOne(cfg, s, step);
    RunAppend(cfg, INIT, steps, [step]);
    DisciplinedGrows(cfg, INIT, steps, step, d);
    assert Run(cfg, INIT, steps + [step]) == Apply(cfg, s, step);
  }

  lemma InsertedBy(cfg: Config, d: Discipline) returns (s: State)
    ensures ReachableBy(cfg, s, d)
    ensures s == INIT.(rows := map[1 := FreshRow(SAMPLE)], requests := map[0 := Inserted(true, {SAMPLE}, {})],
                       replies := s.replies, hist := map[1 := UNTOUCHED])
  {
    assert Valid(cfg, INIT, []) && Disciplined(cfg, INIT, [], d) && Run(cfg, INIT, []) == INIT;
    hide ReachableBy, Disciplined, Enabled, Apply;
    SampleInserts(cfg);
    ByStep(cfg, INIT, SAMPLE_INSERT, d);
    s := Apply(cfg, INIT, SAMPLE_INSERT);
  }

  /** The sample is pending, in the log, unlocked and past the grace period. */
  ghost predicate Forgotten(cfg: Config, s: State) {
    && s.rows == map[1 := FreshRow(SAMPLE)] && s.clock == cfg.pendingAfter + 1 && s.txs == map[]
    && RecordOf(SAMPLE) in s.published
  }

  /** A write that failed has reached the log, or the request is slow to mark the row. */
  lemma LoggedByRequest(cfg: Config, d: Discipline, ok: bool) returns (s: State)
    requires 0 <= cfg.pendingAfter && (if ok then d.grace > cfg.pendingAfter else d.partialWrites)
    ensures ReachableBy(cfg, s, d) && Forgotten(cfg, s)
  {
    var s0 := InsertedBy(cfg, d);
    hide ReachableBy;
    assert PendingOf({SAMPLE}) == {SAMPLE} && IdsOf({SAMPLE}) == {1};
    ByStep(cfg, s0, Publish(0, ok, {1}), d);
    var s1 := Apply(cfg, s0, Publish(0, ok, {1}));
    assert RecordOf(SAMPLE) in RecordsOf({SAMPLE}, {1});
    ByStep(cfg, s1, Advance(cfg.pendingAfter + 1), d);
    s := Apply(cfg, s1, Advance(cfg.pendingAfter + 1));
  }

  /** A reaper published the row and lost its transaction. */
  lemma LoggedByReaper(cfg: Config, d: Discipline) returns (s: State)
    requires 0 <= cfg.pendingAfter && cfg.reapLimit >= 1 && d.lostUpdates
    ensures ReachableBy(cfg, s, d) && Forgotten(cfg, s)
  {
    var s0 := InsertedBy(cfg, d);
    var now := cfg.pendingAfter + 1;
    hide ReachableBy;
    ByStep(cfg, s0, Advance(now), d);
    var s1 := Apply(cfg, s0, Advance(now));
    s := RolledBack(cfg, d, s1, now);
  }

  lemma RolledBack(cfg: Config, d: Discipline, s0: State, now: Time) returns (s: State)
    requires cfg.reapLimit >= 1 && d.lostUpdates && ReachableBy(cfg, s0, d) && now == cfg.pendingAfter + 1
    requires s0.rows == map[1 := FreshRow(SAMPLE)] && s0.clock == now && s0.txs == map[]
    requires s0.requests == map[0 := Inserted(true, {SAMPLE}, {})]
    ensures ReachableBy(cfg, s, d) && Forgotten(cfg, s)
  {
    var select := Select(0, true, now, now, {1});
    SampleSelects(cfg, s0, FreshRow(SAMPLE));
    hide ReachableBy, Eligible;
    var s1 := Apply(cfg, s0, select);
    assert Prompt(d, s1) && Allows(d, s0, select);
    ByStep(cfg, s0, select, d);
    s := RepublishedThenLost(cfg, d, s1, s0.rows, now);
  }

  lemma RepublishedThenLost(cfg: Config, d: Discipline, s0: State, rows: Rows, now: Time) returns (s: State)
    requires d.lostUpdates && ReachableBy(cfg, s0, d) && now == cfg.pendingAfter + 1 && s0.clock == now
    requires s0.rows == rows == map[1 := FreshRow(SAMPLE)]
        && s0.txs == map[0 := Tx(KindOf(cfg, true), rows, now, false)]
    requires s0.requests == map[0 := Inserted(true, {SAMPLE}, {})]
    ensures ReachableBy(cfg, s, d) && Forgotten(cfg, s)
  {
    var s1 := RepublishedBy(cfg, d, s0, rows, now);
    hide ReachableBy, RecordOf;
    var rollback := Rollback(0);
    assert Enabled(cfg, s1, rollback) && Apply(cfg, s1, rollback) == s1.(txs := map[]);
    ByStep(cfg, s1, rollback, d);
    s := Apply(cfg, s1, rollback);
  }

  lemma RepublishedBy(cfg: Config, d: Discipline, s0: State, rows: Rows, now: Time) returns (s: State)
    requires ReachableBy(cfg, s0, d) && rows == map[1 := FreshRow(SAMPLE)]
    requires s0.txs == map[0 := Tx(KindOf(cfg, true), rows, now, false)]
    requires s0.requests == map[0 := Inserted(true, {SAMPLE}, {})]
    ensures ReachableBy(cfg, s, d) && RecordOf(SAMPLE) in s.published
    ensures s == s0.(published := s.published, txs := map[0 := Tx(KindOf(cfg, true), rows, now, true)])
  {
    hide ReachableBy;
    var republish := Republish(0, true, {1});
    assert Enabled(cfg, s0, republish);
    s := Apply(cfg, s0, republish);
    assert RecordOf(SAMPLE) in RowRecords(rows, {1});
    ByStep(cfg, s0, republish, d);
  }

  lemma ForgottenIsSelected(cfg: Config, s: State)
    requires cfg.reapLimit >= 1 && Forgotten(cfg, s)
    ensures Enabled(cfg, s, Select(0, true, s.clock, s.clock, {1})) && !NoneLogged(s, {1})
  {
    assert |{1}| <= LimitOf(cfg, true);
  }

  lemma NoneLoggedMeans(s: State, ids: set<Id>)
    ensures NoneLogged(s, ids) <==> forall id | id in ids && id in s.rows && s.rows[id].status == Pending ::
              RecordOf(s.rows[id].draft) !in s.published
  {
  }

  /** What a discipline forbids: nothing but failed writes that reached the log, and deaths between a
      publish and its update. */
  lemma DisciplineMeans(d: Discipline, s: State, step: Step)
    ensures !Allows(d, s, step) <==>
              || (!d.partialWrites && ((step.Publish? && !step.ok && step.written != {})
                                       || (step.Republish? && !step.ok && step.written != {})))
              || (!d.lostUpdates && ((step.Abandon? && !(step.rid in s.requests && s.requests[step.rid].Inserted?))
                                     || (step.Rollback? && !(step.tid in s.txs && !s.txs[step.tid].published))))
    ensures Prompt(d, s) <==>
              forall q, id | q in s.requests && s.requests[q].Published? && id in s.requests[q].ids && id in s.rows ::
                s.rows[id].status == Pending ==> s.clock <= s.rows[id].updatedAt + d.grace
  {
  }

  /** A pending row the reaper selects has never reached Kafka, in all runs of the discipline, if and
      only if failed writes leave nothing in the log, no update is lost after its publish, and
      requests mark their rows within the grace period. */
  lemma NoDuplicatesIff(cfg: Config, d: Discipline)
    requires 0 <= cfg.pendingAfter && cfg.reapLimit >= 1
    ensures NoDuplicates(cfg, d) <==> !d.partialWrites && !d.lostUpdates && d.grace <= cfg.pendingAfter
    ensures NoDuplicates(cfg, d) <==> forall s, step |
              ReachableBy(cfg, s, d) && Enabled(cfg, s, step) && step.Select? && step.reap ::
              forall id | id in step.ids && id in s.rows && s.rows[id].status == Pending ::
                RecordOf(s.rows[id].draft) !in s.published
  {
    forall s: State, ids { NoneLoggedMeans(s, ids); }
    hide ReachableBy, Enabled, NoneLogged, Forgotten;
    if !d.partialWrites && !d.lostUpdates && d.grace <= cfg.pendingAfter {
      forall s, step | ReachableBy(cfg, s, d) && Enabled(cfg, s, step) && step.Select? && step.reap
        ensures NoneLogged(s, step.ids)
      {
        DisciplineSuffices(cfg, s, step, d);
      }
    } else {
      var s: State;
      if d.lostUpdates {
        s := LoggedByReaper(cfg, d);
      } else {
        s := LoggedByRequest(cfg, d, !d.partialWrites);
      }
      ForgottenIsSelected(cfg, s);
    }
  }
}
