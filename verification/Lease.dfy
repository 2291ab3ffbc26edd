/** The reaper's in-flight window as a lease: when claims end within it, at most one worker holds a
    row and the unguarded final writes are safe. */
module Lease {
  import opened Domain
  import opened Table
  import opened Protocol
  import opened Invariants
  import opened Preservation

  /** A worker's row is still as its claim left it. */
  ghost predicate Owned(rows: Rows, workers: Workers) {
    forall w | w in workers ::
      && workers[w].msg.id in rows
      && rows[workers[w].msg.id].status == Processing && rows[workers[w].msg.id].updatedAt == workers[w].claimedAt
  }

  ghost predicate Sole(workers: Workers) {
    forall v, w | v in workers && w in workers && workers[v].msg.id == workers[w].msg.id :: v == w
  }

  /** No transaction has selected a row some worker still holds. */
  ghost predicate Unpicked(workers: Workers, txs: Txs) {
    forall w, t | w in workers && t in txs :: workers[w].msg.id !in txs[t].picked
  }

  ghost predicate Leased(s: State) {
    Owned(s.rows, s.workers) && Sole(s.workers) && Unpicked(s.workers, s.txs)
  }

  /** The step leaves every row some worker holds to that worker. */
  lemma HeldRowsStand(s: State, t: State)
    requires Leased(s) && t.workers == s.workers && t.txs.Keys <= s.txs.Keys
    requires forall x | x in t.txs :: t.txs[x].picked == s.txs[x].picked
    requires forall id | id in s.rows && s.rows[id].status == Processing
        && (forall x | x in s.txs :: id !in s.txs[x].picked)
               :: id in t.rows && t.rows[id] == s.rows[id]
    ensures Leased(t)
  {
    assert forall w | w in s.workers :: forall x | x in s.txs :: s.workers[w].msg.id !in s.txs[x].picked;
  }

  /** The heart of the lease: what the reaper may select, no worker within its time still holds. */
  lemma SelectSparesHolders(cfg: Config, s: State, tid: nat, reap: bool, now: Time, stamp: Time, ids: set<Id>)
    requires Leased(s) && Timely(s, Lifetime(cfg.inflightAfter)) && CanSelect(cfg, s, tid, reap, now, stamp, ids)
    ensures Leased(DoSelect(cfg, s, tid, reap, stamp, ids))
  {
    forall w | w in s.workers ensures s.workers[w].msg.id !in ids {
      var r := s.rows[s.workers[w].msg.id];
      assert r.updatedAt + cfg.inflightAfter >= s.clock;
    }
  }

  lemma ClaimTakesOver(s: State, wid: nat, pool: Channel, priority: Priority, msg: Message, stamp: Time)
    requires Leased(s) && CanClaim(s, wid, pool, priority, msg, stamp)
    ensures Leased(DoClaim(s, wid, pool, msg, stamp))
  {
    forall t | t in s.txs ensures msg.id !in s.txs[t].picked {
      assert msg.id in s.txs[t].picked ==> Locked(s.txs, msg.id);
    }
  }

  lemma FinishReleases(s: State, wid: nat, r: Row)
    requires Leased(s) && wid in s.workers
    ensures Leased(DoFinish(s, wid, r)) && Leased(s.(workers := s.workers - {wid}))
  {
  }

  lemma PhaseChangeKeepsLease(s: State, t: State, wid: nat)
    requires Leased(s) && wid in s.workers && t.rows == s.rows && t.txs == s.txs
    requires t.workers == s.workers - {wid}
          || exists phase, clock :: t.workers == s.workers[wid := Moved(s.workers[wid], phase, clock)]
    ensures Leased(t)
  {
  }

  /** The remaining steps write no row a worker holds. */
  lemma OthersSpareHeldRows(cfg: Config, s: State, step: Step)
    requires Leased(s) && Enabled(cfg, s, step)
    requires !step.Insert? && !step.Claim? && !step.Deliver? && !step.DeadLetter? && !step.MarkSent? && !step.MarkDead?
    requires !step.Crash? && !step.Select?
    ensures Leased(Apply(cfg, s, step))
  {
    hide Leased, RecordOf, RowRecords, RecordsOf;
    HeldRowsStand(s, Apply(cfg, s, step));
  }

  lemma StepKeepsLease(cfg: Config, s: State, step: Step)
    requires Inv(cfg, s) && Leased(s) && Timely(s, Lifetime(cfg.inflightAfter)) && Enabled(cfg, s, step)
    ensures Leased(Apply(cfg, s, step))
  {
    hide Owned, Sole, Unpicked;
    hide Keyed, Tallied, Locks, Picks, Records, Envelopes, Announced, Holders, Asked, Answered, Counted,
      EarnedRows, EarnedPhases, WrittenOnce;
    hide RecordOf, PhaseAfter, Follows, Eligible, Envelope, FreshIds, InsertAll, Timely;
    var t := Apply(cfg, s, step);
    match step
    case Insert(rid, single, ds) => InsertAdds(s, rid, single, ds); HeldRowsStand(s, t);
    case Claim(wid, pool, priority, msg, stamp) => ClaimTakesOver(s, wid, pool, priority, msg, stamp);
    case Deliver(wid, action) => PhaseChangeKeepsLease(s, t, wid);
    case DeadLetter(wid, _, _) => PhaseChangeKeepsLease(s, t, wid);
    case MarkSent(wid, providerId, _) => FinishReleases(s, wid, t.rows[s.workers[wid].msg.id]);
    case MarkDead(wid, error, _) => FinishReleases(s, wid, t.rows[s.workers[wid].msg.id]);
    case Crash(wid) => PhaseChangeKeepsLease(s, t, wid);
    case Select(tid, reap, now, stamp, ids) => SelectSparesHolders(cfg, s, tid, reap, now, stamp, ids);
    case _ => OthersSpareHeldRows(cfg, s, step);
  }

  lemma {:induction false} RunKeepsLease(cfg: Config, s: State, steps: seq<Step>, d: Time)
    requires Inv(cfg, s) && Leased(s) && d <= cfg.inflightAfter
    requires Valid(cfg, s, steps) && TimelyRun(cfg, s, steps, Lifetime(d))
    ensures Leased(Run(cfg, s, steps)) && Timely(Run(cfg, s, steps), Lifetime(d))
    decreases |steps|
  {
    hide Inv, Leased;
    if steps != [] {
      StepKeeps(cfg, s, steps[0]);
      StepKeepsLease(cfg, s, steps[0]);
      RunKeepsLease(cfg, Apply(cfg, s, steps[0]), steps[1..], d);
    }
  }

  /** If every claim ends within inflightAfter of the updated_at it wrote, at most one live worker
      holds any row, and a row it holds is in 'processing' as its claim wrote it. */
  lemma LeaseIsExclusive(cfg: Config, s: State, d: Time)
    requires ReachableInTime(cfg, s, Lifetime(d)) && d <= cfg.inflightAfter
    ensures Owned(s.rows, s.workers) && Sole(s.workers) && Unpicked(s.workers, s.txs)
    ensures Inv(cfg, s) && Timely(s, Lifetime(d))
    ensures forall v, w | v in s.workers && w in s.workers && v != w :: s.workers[v].msg.id != s.workers[w].msg.id
    ensures forall w | w in s.workers ::
              && s.workers[w].msg.id in s.rows && s.clock <= s.workers[w].claimedAt + d
              && s.rows[s.workers[w].msg.id].status == Processing
              && s.rows[s.workers[w].msg.id].updatedAt == s.workers[w].claimedAt
              && forall t | t in s.txs :: s.workers[w].msg.id !in s.txs[t].picked
  {
    hide Enabled, Apply, Timely, Owned, Sole, Unpicked, Inv;
    var steps :| Valid(cfg, INIT, steps) && TimelyRun(cfg, INIT, steps, Lifetime(d)) && Run(cfg, INIT, steps) == s;
    InitIsLeased(cfg);
    RunKeepsLease(cfg, INIT, steps, d);
    RunKeeps(cfg, INIT, steps);
    LeaseMeans(s, d);
  }

  lemma LeaseMeans(s: State, d: Time)
    requires Leased(s) && Timely(s, Lifetime(d))
    ensures forall v, w | v in s.workers && w in s.workers && v != w :: s.workers[v].msg.id != s.workers[w].msg.id
    ensures forall w | w in s.workers ::
              && s.workers[w].msg.id in s.rows && s.clock <= s.workers[w].claimedAt + d
              && s.rows[s.workers[w].msg.id].status == Processing
              && s.rows[s.workers[w].msg.id].updatedAt == s.workers[w].claimedAt
              && forall t | t in s.txs :: s.workers[w].msg.id !in s.txs[t].picked
  {
  }

  lemma InitIsLeased(cfg: Config)
    ensures Inv(cfg, INIT) && Leased(INIT)
  {
  }

  /** Under the lease each of sent, dead and cancelled is absorbing: no step rewrites such a row. */
  lemma FinalRowsStand(cfg: Config, s: State, step: Step, id: Id, d: Time)
    requires ReachableInTime(cfg, s, Lifetime(d)) && d <= cfg.inflightAfter && Enabled(cfg, s, step)
    requires id in s.rows && s.rows[id].status in {Sent, Dead, Cancelled}
    ensures id in Apply(cfg, s, step).rows && Apply(cfg, s, step).rows[id] == s.rows[id]
  {
    hide Keyed, Tallied, Locks, Picks, Records, Envelopes, Announced, Holders, Asked, Answered, Counted,
      EarnedRows, EarnedPhases, WrittenOnce;
    hide Sole, Unpicked, Timely, TimelyRun, ReachableInTime;
    LeaseIsExclusive(cfg, s, d);
    if step.Insert? {
      InsertAdds(s, step.rid, step.single, step.drafts);
    } else if step.Commit? {
      PickedIsHeld(s.rows, s.txs, step.tid);
    }
  }
}
