/** What Kafka's replay is worth after a crash in mid-delivery: nothing, until a reaper has been. */
module Replay {
  import opened Domain
  import opened Table
  import opened Protocol
  import opened Invariants
  import opened Preservation
  import opened Runs

  // The row is still 'processing', so the replayed message finds nothing to claim: it is skipped,
  // however often it comes, until a reaper has queued the row again.

  /** A claimed row whose worker is gone. */
  ghost predicate Stranded(s: State, id: Id) {
    id in s.rows && s.rows[id].status == Processing && forall w | w in s.workers :: s.workers[w].msg.id != id
  }

  /** The commit of a transaction that has selected the row. */
  ghost predicate Reaps(s: State, step: Step, id: Id) {
    step.Commit? && step.tid in s.txs && id in s.txs[step.tid].picked
  }

  /** A claim of the notification, or work under one. */
  ghost predicate Touches(s: State, step: Step, id: Id) {
    || (step.Claim? && step.msg.id == id)
    || (step.Deliver? && step.wid in s.workers && s.workers[step.wid].msg.id == id)
  }

  /** No claim and no Send was counted in between. */
  ghost predicate SameService(s: State, t: State, id: Id) {
    id in s.hist && id in t.hist && t.hist[id].claims == s.hist[id].claims && t.hist[id].sends == s.hist[id].sends
  }

  /** Nobody serves a stranded row. */
  lemma NobodyServes(cfg: Config, s: State, step: Step, id: Id)
    requires Inv(cfg, s) && Enabled(cfg, s, step) && Stranded(s, id)
    ensures !Touches(s, step, id) && SameService(s, Apply(cfg, s, step), id)
  {
    assert id in s.hist;
    CannotServe(cfg, s, step, id);
    hide Inv, SameService, Touches, Stranded;
    if step.Insert? {
      InsertCountsNothing(cfg, s, step.rid, step.single, step.drafts, id);
    } else {
      hide Enabled, Apply;
      StepCountsService(cfg, s, step, id);
    }
  }

  lemma CannotServe(cfg: Config, s: State, step: Step, id: Id)
    requires Enabled(cfg, s, step) && Stranded(s, id)
    ensures !Touches(s, step, id)
  {
  }

  lemma InsertCountsNothing(cfg: Config, s: State, rid: nat, single: bool, ds: seq<Draft>, id: Id)
    requires Inv(cfg, s) && CanInsert(s, rid, single, ds) && id in s.hist
    ensures SameService(s, DoInsert(s, rid, single, ds), id)
  {
    InsertAdds(s, rid, single, ds);
  }

  /** What a step counts of a notification it does not serve. */
  lemma StepCountsService(cfg: Config, s: State, step: Step, id: Id)
    requires Enabled(cfg, s, step) && !step.Insert? && id in s.hist && !Touches(s, step, id)
    ensures SameService(s, Apply(cfg, s, step), id)
  {
    hide RecordOf, Eligible, PhaseAfter, Follows, Table.MarkQueued, Requeue, RowRecords, Locked, FreshIds;
  }

  /** Only a reaper's commit changes it. */
  lemma StepSparesStranded(cfg: Config, s: State, step: Step, id: Id)
    requires Inv(cfg, s) && Enabled(cfg, s, step) && Stranded(s, id)
    ensures var t := Apply(cfg, s, step);
            if Reaps(s, step, id)
            then s.txs[step.tid].kind.Reap? && id in t.rows && t.rows[id].status == Queued
            else Stranded(t, id) && t.rows[id] == s.rows[id]
  {
    hide Keyed, Tallied, Locks, Picks, Records, Envelopes, Announced, Holders, Asked, Answered, Counted,
      EarnedRows, EarnedPhases, WrittenOnce;
    hide RecordOf, Eligible, PhaseAfter, Follows, RowRecords, RecordsOf;
    if step.Insert? { InsertAdds(s, step.rid, step.single, step.drafts); }
    if step.Commit? { PickedIsHeld(s.rows, s.txs, step.tid); }
  }

  /** Along the run a reaper's commit queued the row. */
  ghost predicate ReapedIn(cfg: Config, s: State, steps: seq<Step>, id: Id)
    decreases |steps|
  {
    steps != [] && Enabled(cfg, s, steps[0])
    && (Reaps(s, steps[0], id) || ReapedIn(cfg, Apply(cfg, s, steps[0]), steps[1..], id))
  }

  /** Without a reap a stranded row stays as the crash left it, in every run, whatever Kafka replays. */
  lemma {:induction false} StrandedUntilReaped(cfg: Config, s: State, steps: seq<Step>, id: Id)
    requires Inv(cfg, s) && Valid(cfg, s, steps) && Stranded(s, id) && !ReapedIn(cfg, s, steps, id)
    ensures Stranded(Run(cfg, s, steps), id) && Run(cfg, s, steps).rows[id] == s.rows[id]
    ensures SameService(s, Run(cfg, s, steps), id)
    decreases |steps|
  {
    assert id in s.hist;
    hide Inv, Enabled, Apply, Stranded, Reaps;
    if steps != [] {
      StepKeeps(cfg, s, steps[0]);
      NobodyServes(cfg, s, steps[0], id);
      StepSparesStranded(cfg, s, steps[0], id);
      StrandedUntilReaped(cfg, Apply(cfg, s, steps[0]), steps[1..], id);
    }
  }

  /** Every claim of a stranded notification comes after a reap of it. */
  lemma {:induction false} ClaimNeedsReap(cfg: Config, s: State, steps: seq<Step>, id: Id, j: nat)
    requires Inv(cfg, s) && Valid(cfg, s, steps) && Stranded(s, id)
    requires j < |steps| && steps[j].Claim? && steps[j].msg.id == id
    ensures ReapedIn(cfg, s, steps[..j], id)
    decreases |steps|
  {
    hide Inv, Enabled, Apply, Stranded, Reaps;
    StepKeeps(cfg, s, steps[0]);
    NobodyServes(cfg, s, steps[0], id);
    StepSparesStranded(cfg, s, steps[0], id);
    assert j != 0;
    if !Reaps(s, steps[0], id) {
      ClaimNeedsReap(cfg, Apply(cfg, s, steps[0]), steps[1..], id, j - 1);
    }
    assert steps[..j][1..] == steps[1..][..j - 1];
  }

  /** After any one step, the replayed message of a stranded notification can be claimed if and only
      if that step was a reap of it. */
  lemma ReplayClaimsIff(cfg: Config, s: State, step: Step, id: Id, wid: nat, stamp: Time)
    requires Reachable(cfg, s) && Enabled(cfg, s, step)
    requires id in s.rows && s.rows[id].status == Processing && forall w | w in s.workers :: s.workers[w].msg.id != id
    requires wid !in Apply(cfg, s, step).workers && stamp <= Apply(cfg, s, step).clock
    ensures var d := s.rows[id].draft;
            CanClaim(Apply(cfg, s, step), wid, d.channel, d.priority, MessageOf(d), stamp) <==> Reaps(s, step, id)
    ensures Reaps(s, step, id) <==> step.Commit? && step.tid in s.txs && id in s.txs[step.tid].picked
    ensures Reaps(s, step, id) ==> s.txs[step.tid].kind.Reap?
  {
    hide Inv;
    ReachableInv(cfg, s);
    StepKeeps(cfg, s, step);
    StepSparesStranded(cfg, s, step, id);
    if Reaps(s, step, id) { CommitQueuesAgain(cfg, s, step, id); }
    hide Enabled, Apply, MessageOf, TopicFor;
    var d := s.rows[id].draft;
    assert RecordOf(d) == Record(TopicFor(d.channel, d.priority), MessageOf(d));
    KeyIsId(cfg, s, id);
    assert MessageOf(d).id == id by { MessageKeepsId(d); }
  }

  lemma CommitQueuesAgain(cfg: Config, s: State, step: Step, id: Id)
    requires Inv(cfg, s) && Enabled(cfg, s, step) && Reaps(s, step, id) && Inv(cfg, Apply(cfg, s, step))
    ensures var t := Apply(cfg, s, step);
            && id in t.rows && id in t.hist && t.rows[id].draft == s.rows[id].draft && t.rows[id].status == Queued
            && !Locked(t.txs, id) && RecordOf(s.rows[id].draft) in t.published
  {
    hide Inv, Locks, Tallied, Announced, DoCommit, Locked, RecordOf;
    InvParts(cfg, s);
    InvParts(cfg, Apply(cfg, s, step));
    QueuedAgain(s, step.tid, Apply(cfg, s, step), id);
  }

  lemma InvParts(cfg: Config, s: State)
    requires Inv(cfg, s)
    ensures Locks(s.rows, s.txs) && Tallied(s.rows, s.hist) && Announced(s.rows, s.published)
  {
  }

  lemma MessageKeepsId(d: Draft)
    ensures MessageOf(d).id == d.id
  {
  }

  lemma KeyIsId(cfg: Config, s: State, id: Id)
    requires Inv(cfg, s) && id in s.rows
    ensures s.rows[id].draft.id == id
  {
  }

  /** What a reap leaves: the row, unlocked, and its message in the log. */
  lemma QueuedAgain(s: State, tid: nat, t: State, id: Id)
    requires Locks(s.rows, s.txs) && Tallied(t.rows, t.hist) && Announced(t.rows, t.published)
    requires CanCommit(s, tid) && id in s.txs[tid].picked && t == DoCommit(s, tid)
    ensures id in t.rows && id in t.hist && t.rows[id].draft == s.rows[id].draft && t.rows[id].status == Queued
    ensures !Locked(t.txs, id) && RecordOf(s.rows[id].draft) in t.published
  {
    PickedIsHeld(s.rows, s.txs, tid);
    hide RecordOf;
    assert forall u | u in s.txs && u != tid :: s.txs[u].picked.Keys !! s.txs[tid].picked.Keys;
  }

  /** A worker claims a notification and crashes: its message is in the log for ever, and no fetch
      of it can claim the row. */
  lemma ReplaySkipped(cfg: Config) returns (s: State)
    ensures Reachable(cfg, s) && Stranded(s, 1) && s.workers == map[] && RecordOf(SAMPLE) in s.published
    ensures s.rows[1].draft == SAMPLE && s.rows[1].status == Processing
    ensures forall wid, pool, priority, stamp :: !CanClaim(s, wid, pool, priority, MessageOf(SAMPLE), stamp)
  {
    var s0 := SampleClaimed(cfg, Lifetime(0));
    hide ReachableInTime;
    InTimeStep(cfg, s0, Crash(0), Lifetime(0));
    s := Apply(cfg, s0, Crash(0));
    InTimeIsReachable(cfg, s, Lifetime(0));
  }
}
