/** The two pollers: each tick drains what is due, or stuck, batch by batch. */
module Polling {
  import opened Domain
  import opened Table
  import opened Storage

  /** Exactly these rows were queued, with stamps no earlier than since; the others stand. */
  ghost predicate Requeued(before: Rows, rows: Rows, ids: set<Id>, since: Time) {
    && rows.Keys == before.Keys
    && forall id | id in before ::
         if id in ids
         then rows[id] == before[id].(status := Queued, updatedAt := rows[id].updatedAt) && since <= rows[id].updatedAt
         else rows[id] == before[id]
  }

  lemma RequeuedGrows(before: Rows, rows: Rows, ids: set<Id>, more: set<Id>, stamp: Time, since: Time)
    requires Requeued(before, rows, ids, since) && ids !! more && since <= stamp
    ensures Requeued(before, Requeue(rows, more, stamp), ids + more, since)
  {
  }

  /** What was listed so far, as the rows were before the tick. */
  ghost predicate Gathered(kind: Kind, before: Rows, sent: seq<Row>) {
    && DistinctIds(sent)
    && forall r | r in sent :: r.draft.id in before && before[r.draft.id] == r && Pickable(kind, r.status)
  }

  /** A batch of rows not yet listed extends the list without repetition. */
  lemma GatheredGrows(kind: Kind, before: Rows, rows: Rows, sent: seq<Row>, batch: seq<Row>, since: Time)
    requires Gathered(kind, before, sent) && Requeued(before, rows, Ids(sent), since)
    requires DistinctIds(batch)
    requires forall r | r in batch ::
               r.draft.id in rows && rows[r.draft.id] == r && Pickable(kind, r.status) && r.draft.id !in Ids(sent)
    ensures Gathered(kind, before, sent + batch)
  {
    assert forall i | 0 <= i < |sent| :: sent[i] in sent && sent[i].draft.id in Ids(sent);
    assert forall i | 0 <= i < |batch| :: batch[i] in batch;
  }

  /** With a batch size of zero the query returns nothing and the exit test never holds: the
      tick would repeat this round for ever. Every other batch size lets a short batch end it. */
  lemma ZeroBatchNeverEnds(kind: Kind, rows: Rows, locked: set<Id>, now: Time, batch: seq<Row>, stamp: Time)
    requires IsBatch(kind, rows, locked, now, 0, batch)
    ensures !(|batch| < 0) && Requeue(rows, Ids(batch), stamp) == rows
  {
    assert batch == [];
    assert Ids(batch) == {};
  }

  /** One round of either poller: the batch is new, is queued, and is all there was if it is short. */
  lemma Round(kind: Kind, before: Rows, rows: Rows, sent: seq<Row>, batch: seq<Row>,
      now: Time, limit: int, stamp: Time, since: Time)
    requires WellKeyed(rows) && Gathered(kind, before, sent) && Requeued(before, rows, Ids(sent), since)
        && since <= stamp
    requires IsBatch(kind, rows, {}, now, limit, batch)
    requires forall id | id in Ids(sent) && id in rows :: !Eligible(kind, rows[id], now)
    ensures var rows' := Requeue(rows, Ids(batch), stamp);
            && WellKeyed(rows') && Gathered(kind, before, sent + batch)
            && Requeued(before, rows', Ids(sent + batch), since)
            && (|batch| < limit ==> EligibleIds(kind, rows, {}, now) <= Ids(batch))
    ensures Ids(sent + batch) == Ids(sent) + Ids(batch) && Ids(sent) !! Ids(batch)
    ensures batch != [] ==> before.Keys - Ids(sent + batch) < before.Keys - Ids(sent)
  {
    IdsAppend(sent, batch);
    assert forall id | id in Ids(batch) :: id in EligibleIds(kind, rows, {}, now);
    RequeuedGrows(before, rows, Ids(sent), Ids(batch), stamp, since);
    assert forall r | r in batch :: r.draft.id in Ids(batch);
    GatheredGrows(kind, before, rows, sent, batch, since);
    if batch != [] {
      assert batch[0] in batch;
      assert batch[0].draft.id in before.Keys - Ids(sent);
    }
  }

  /** The clock never runs back, and a transaction begins after the tick read it. */
  ghost predicate ClockRuns(nowAt: nat -> Time, stampAt: nat -> Time) {
    && (forall i: nat, j: nat | i <= j :: nowAt(i) <= nowAt(j))
    && (forall i: nat :: nowAt(i) <= stampAt(i))
  }

  /** These rounds take no longer than the window. */
  ghost predicate InWindow(nowAt: nat -> Time, rounds: nat, window: Time) {
    forall i: nat | i <= rounds :: nowAt(i) <= nowAt(0) + window
  }

  lemma RoundInWindow(nowAt: nat -> Time, rounds: nat, window: Time, round: nat)
    requires InWindow(nowAt, rounds, window) && round <= rounds
    ensures nowAt(round) <= nowAt(0) + window
  {
  }

  /** The reading before this round's, or the first. */
  function Previous(nowAt: nat -> Time, round: nat): Time { nowAt(if round == 0 then 0 else round - 1) }

  lemma ClockAt(nowAt: nat -> Time, stampAt: nat -> Time, round: nat)
    requires ClockRuns(nowAt, stampAt)
    ensures nowAt(0) <= nowAt(round) <= stampAt(round) && Previous(nowAt, round) <= nowAt(round)
  {
  }

  // ----- Scheduler -----

  /** Everything still scheduled is due no earlier than everything dispatched. */
  ghost predicate DueLater(sent: seq<Row>, rows: Rows) {
    forall r, id | r in sent && id in rows && rows[id].status == Scheduled && rows[id].draft.scheduledAt.Some?
      :: SortKey(Dispatch, r) <= SortKey(Dispatch, rows[id])
  }

  /** A full batch at now keeps the dispatch in due order, whatever becomes due afterwards. */
  lemma DueOrderGrows(rows: Rows, sent: seq<Row>, batch: seq<Row>, now: Time, limit: int, stamp: Time)
    requires IsBatch(Dispatch, rows, {}, now, limit, batch)
    requires Sorted(Dispatch, sent) && DueLater(sent, rows)
    ensures Sorted(Dispatch, sent + batch)
    ensures DueLater(sent + batch, Requeue(rows, Ids(batch), stamp))
  {
    assert forall i | 0 <= i < |batch| :: batch[i] in batch;
    assert forall i | 0 <= i < |sent| :: sent[i] in sent;
    var rows' := Requeue(rows, Ids(batch), stamp);
    forall r, id | r in batch && id in rows' && rows'[id].status == Scheduled && rows'[id].draft.scheduledAt.Some?
      ensures SortKey(Dispatch, r) <= SortKey(Dispatch, rows'[id])
    {
      if rows[id].draft.scheduledAt.value <= now { assert id in EligibleIds(Dispatch, rows, {}, now); }
    }
  }

  class Scheduler {
    const repo: Repository
    const batchSize: int

    constructor (repo: Repository, batchSize: int)
      ensures this.repo == repo && this.batchSize == batchSize
    {
      this.repo := repo;
      this.batchSize := batchSize;
    }

    /** The rounds of a tick. The k-th reads the clock as nowAt(k), its transaction writes
        stampAt(k), and its publish succeeds or not. A batch size of zero never returns. */
    method Rounds(nowAt: nat -> Time, stampAt: nat -> Time, publishes: nat -> bool)
      returns (sent: seq<Row>, rounds: nat, failed: bool)
      requires WellKeyed(repo.rows) && batchSize != 0
      requires ClockRuns(nowAt, stampAt)
      modifies repo
      ensures rounds > 0 && Sorted(Dispatch, sent) && Gathered(Dispatch, old(repo.rows), sent)
      ensures forall r | r in sent :: Eligible(Dispatch, r, nowAt(rounds - 1))
      ensures Requeued(old(repo.rows), repo.rows, Ids(sent), nowAt(0))
      ensures !failed ==> EligibleIds(Dispatch, repo.rows, {}, nowAt(rounds - 1)) == {}
      ensures failed ==> batchSize < 0 || !publishes(rounds - 1)
    {
      sent, rounds := [], 0;
      ghost var before := repo.rows;
      assert Ids([]) == {};
      while true
        invariant WellKeyed(repo.rows) && Sorted(Dispatch, sent) && Gathered(Dispatch, before, sent)
        invariant Requeued(before, repo.rows, Ids(sent), nowAt(0)) && DueLater(sent, repo.rows)
        invariant forall r | r in sent :: rounds > 0 && Eligible(Dispatch, r, nowAt(rounds - 1))
        decreases before.Keys - Ids(sent)
      {
        var now := nowAt(rounds);
        ghost var rows := repo.rows;
        var due := repo.DispatchDue(now, batchSize, {}, stampAt(rounds), publishes(rounds));
        rounds := rounds + 1;
        if due.None? { return sent, rounds, true; }
        var batch := due.value;
        Round(Dispatch, before, rows, sent, batch, now, batchSize, stampAt(rounds - 1), nowAt(0));
        DueOrderGrows(rows, sent, batch, now, batchSize, stampAt(rounds - 1));
        sent := sent + batch;
        if |batch| < batchSize { return sent, rounds, false; }
      }
    }

    /** Drains the due rows, in due order over all rounds, though the clock moves between them. */
    method Tick(nowAt: nat -> Time, stampAt: nat -> Time, publishes: nat -> bool)
      returns (sent: seq<Row>, rounds: nat, failed: bool)
      requires WellKeyed(repo.rows) && batchSize != 0
      requires forall i: nat, j: nat | i <= j :: nowAt(i) <= nowAt(j)
      requires forall i: nat :: nowAt(i) <= stampAt(i)
      modifies repo
      ensures rounds > 0 && (failed ==> batchSize < 0 || !publishes(rounds - 1))
      // in due order
      ensures forall i, j | 0 <= i < j < |sent| ::
        && sent[i].draft.id != sent[j].draft.id && sent[i].draft.scheduledAt.Some? && sent[j].draft.scheduledAt.Some?
        && sent[i].draft.scheduledAt.value <= sent[j].draft.scheduledAt.value
      // only what was due
      ensures forall r | r in sent ::
        && r.draft.id in old(repo.rows) && old(repo.rows)[r.draft.id] == r && r.status == Scheduled
        && r.draft.scheduledAt.Some? && r.draft.scheduledAt.value <= nowAt(rounds - 1)
      // and all that was due, to the queue and nowhere else
      ensures repo.rows.Keys == old(repo.rows).Keys
      ensures forall id | id in old(repo.rows) ::
        if old(repo.rows)[id] in sent
        then repo.rows[id] == old(repo.rows)[id].(status := Queued, updatedAt := repo.rows[id].updatedAt)
             && nowAt(0) <= repo.rows[id].updatedAt
        else repo.rows[id] == old(repo.rows)[id]
      ensures !failed ==> forall id | id in repo.rows && repo.rows[id].status == Scheduled ::
        repo.rows[id].draft.scheduledAt.Some? ==> nowAt(rounds - 1) < repo.rows[id].draft.scheduledAt.value
    {
      ghost var before := repo.rows;
      sent, rounds, failed := Rounds(nowAt, stampAt, publishes);
      Dispatched(before, repo.rows, sent, nowAt(rounds - 1), nowAt(0));
    }
  }

  /** What a tick of the scheduler has done, in the columns of the rows. */
  lemma Dispatched(before: Rows, rows: Rows, sent: seq<Row>, now: Time, since: Time)
    requires WellKeyed(before) && Sorted(Dispatch, sent) && Gathered(Dispatch, before, sent)
    requires Requeued(before, rows, Ids(sent), since) && forall r | r in sent :: Eligible(Dispatch, r, now)
    ensures forall i, j | 0 <= i < j < |sent| ::
              && sent[i].draft.id != sent[j].draft.id
              && sent[i].draft.scheduledAt.Some? && sent[j].draft.scheduledAt.Some?
              && sent[i].draft.scheduledAt.value <= sent[j].draft.scheduledAt.value
    ensures forall r | r in sent ::
              && r.draft.id in before && before[r.draft.id] == r && r.status == Scheduled
              && r.draft.scheduledAt.Some? && r.draft.scheduledAt.value <= now
    ensures rows.Keys == before.Keys
    ensures forall id | id in before ::
              if before[id] in sent
              then rows[id] == before[id].(status := Queued, updatedAt := rows[id].updatedAt)
                   && since <= rows[id].updatedAt
              else rows[id] == before[id]
    ensures EligibleIds(Dispatch, rows, {}, now) == {} ==>
              forall id | id in rows && rows[id].status == Scheduled ::
                rows[id].draft.scheduledAt.Some? ==> now < rows[id].draft.scheduledAt.value
  {
    assert forall i | 0 <= i < |sent| :: sent[i] in sent;
    TakenOrLeft(before, sent);
    forall id | id in rows && rows[id].status == Scheduled && rows[id].draft.scheduledAt.Some?
                && rows[id].draft.scheduledAt.value <= now
      ensures id in EligibleIds(Dispatch, rows, {}, now)
    {
    }
  }

  // ----- Reaper -----

  class Reaper {
    const repo: Repository
    const pendingAfter: Time
    const inflightAfter: Time
    const batchSize: int

    constructor (repo: Repository, pendingAfter: Time, inflightAfter: Time, batchSize: int)
      ensures this.repo == repo && this.batchSize == batchSize
      ensures this.pendingAfter == pendingAfter && this.inflightAfter == inflightAfter
    {
      this.repo := repo;
      this.pendingAfter := pendingAfter;
      this.inflightAfter := inflightAfter;
      this.batchSize := batchSize;
    }

    /** The rounds of a tick that takes no longer than the window. */
    method Rounds(nowAt: nat -> Time, stampAt: nat -> Time, publishes: nat -> bool)
      returns (reaped: seq<Row>, rounds: nat, failed: bool)
      requires WellKeyed(repo.rows) && batchSize != 0
      requires ClockRuns(nowAt, stampAt)
      requires InWindow(nowAt, |repo.rows|, inflightAfter)
      modifies repo
      ensures 0 < rounds <= 1 + |old(repo.rows)|
      ensures Reaped(Reap(pendingAfter, inflightAfter), old(repo.rows), repo.rows, reaped, nowAt(0))
      ensures WereStuck(Reap(pendingAfter, inflightAfter), reaped, nowAt(rounds - 1))
      ensures !failed ==>
                CaughtUp(Reap(pendingAfter, inflightAfter), old(repo.rows), repo.rows, reaped, nowAt(rounds - 1),
                    nowAt(0))
      ensures failed ==> batchSize < 0 || !publishes(rounds - 1)
    {
      reaped, rounds := [], 0;
      ghost var before := repo.rows;
      ghost var kind := Reap(pendingAfter, inflightAfter);
      NothingYet(kind, before, nowAt(0));
      hide Reaped, IsBatch, Requeue, WellKeyed, Ids, WereStuck, CaughtUp, ClockRuns, InWindow;
      while true
        invariant Reaped(kind, before, repo.rows, reaped, nowAt(0)) && rounds <= |Ids(reaped)|
        invariant WereStuck(kind, reaped, Previous(nowAt, rounds))
        decreases before.Keys - Ids(reaped)
      {
        var now := nowAt(rounds);
        ghost var rows := repo.rows;
        ReapedFew(kind, before, rows, reaped, nowAt(0));
        ClockAt(nowAt, stampAt, rounds);
        RoundInWindow(nowAt, |before|, inflightAfter, rounds);
        StuckLonger(kind, reaped, Previous(nowAt, rounds), now);
        var stuck := repo.ReapStuck(now, pendingAfter, inflightAfter, batchSize, {}, stampAt(rounds),
            publishes(rounds));
        rounds := rounds + 1;
        if stuck.None? { return reaped, rounds, true; }
        ReapRound(kind, before, rows, reaped, stuck.value, now, batchSize, stampAt(rounds - 1), nowAt(0));
        reaped := reaped + stuck.value;
        if |stuck.value| < batchSize { return reaped, rounds, false; }
      }
    }

    /** Drains the stuck rows. When the tick takes no longer than the window, it ends, it reaps no
        row twice, and it leaves none stuck at its last reading of the clock. */
    method Tick(nowAt: nat -> Time, stampAt: nat -> Time, publishes: nat -> bool)
      returns (reaped: seq<Row>, rounds: nat, failed: bool)
      requires WellKeyed(repo.rows) && batchSize != 0
      requires forall i: nat, j: nat | i <= j :: nowAt(i) <= nowAt(j)
      requires forall i: nat :: nowAt(i) <= stampAt(i)
      requires forall i: nat | i <= |repo.rows| :: nowAt(i) <= nowAt(0) + inflightAfter
      modifies repo
      ensures 0 < rounds <= 1 + |old(repo.rows)| && (failed ==> batchSize < 0 || !publishes(rounds - 1))
      // no row twice, and only what was stuck
      ensures forall i, j | 0 <= i < j < |reaped| :: reaped[i].draft.id != reaped[j].draft.id
      ensures forall r | r in reaped ::
        && r.draft.id in old(repo.rows) && old(repo.rows)[r.draft.id] == r && r.status in {Pending, Queued, Processing}
        && r.updatedAt < nowAt(rounds - 1) - if r.status == Pending then pendingAfter else inflightAfter
      // to the queue and nowhere else
      ensures repo.rows.Keys == old(repo.rows).Keys && forall id | id in old(repo.rows) ::
        if old(repo.rows)[id] in reaped
        then repo.rows[id] == old(repo.rows)[id].(status := Queued, updatedAt := repo.rows[id].updatedAt)
             && nowAt(0) <= repo.rows[id].updatedAt
        else repo.rows[id] == old(repo.rows)[id]
      // and all that was stuck
      ensures !failed ==> forall id | id in repo.rows && repo.rows[id].status in {Pending, Queued, Processing} ::
        repo.rows[id].updatedAt >=
          nowAt(rounds - 1) - if repo.rows[id].status == Pending then pendingAfter else inflightAfter
      ensures !failed ==> forall id | id in old(repo.rows)
          && old(repo.rows)[id].status in {Pending, Queued, Processing}
          && old(repo.rows)[id].updatedAt <
               nowAt(0) - (if old(repo.rows)[id].status == Pending then pendingAfter else inflightAfter) ::
        old(repo.rows)[id] in reaped
    {
      ghost var before := repo.rows;
      reaped, rounds, failed := Rounds(nowAt, stampAt, publishes);
      ReapedRows(Reap(pendingAfter, inflightAfter), before, repo.rows, reaped, nowAt(rounds - 1), nowAt(0));
    }
  }

  /** What a tick of the reaper has done, in the columns of the rows. */
  lemma ReapedRows(kind: Kind, before: Rows, rows: Rows, reaped: seq<Row>, now: Time, since: Time)
    requires kind.Reap? && WellKeyed(before)
    requires Reaped(kind, before, rows, reaped, since) && WereStuck(kind, reaped, now)
    ensures forall i, j | 0 <= i < j < |reaped| :: reaped[i].draft.id != reaped[j].draft.id
    ensures forall r | r in reaped ::
              && r.draft.id in before && before[r.draft.id] == r && r.status in {Pending, Queued, Processing}
              && r.updatedAt < now - if r.status == Pending then kind.pendingAfter else kind.inflightAfter
    ensures rows.Keys == before.Keys
    ensures forall id | id in before ::
              if before[id] in reaped
              then rows[id] == before[id].(status := Queued, updatedAt := rows[id].updatedAt)
                   && since <= rows[id].updatedAt
              else rows[id] == before[id]
    ensures CaughtUp(kind, before, rows, reaped, now, since) ==>
              forall id | id in rows && rows[id].status in {Pending, Queued, Processing} ::
                rows[id].updatedAt >= now - if rows[id].status == Pending then kind.pendingAfter else kind.inflightAfter
    ensures CaughtUp(kind, before, rows, reaped, now, since) ==>
              forall id | id in before && before[id].status in {Pending, Queued, Processing}
                  && before[id].updatedAt <
                       since - (if before[id].status == Pending then kind.pendingAfter else kind.inflightAfter) ::
                before[id] in reaped
  {
    TakenOrLeft(before, reaped);
    if CaughtUp(kind, before, rows, reaped, now, since) {
      assert forall id | id in rows && Eligible(kind, rows[id], now) :: id in EligibleIds(kind, rows, {}, now);
      assert forall id | id in before && Eligible(kind, before[id], since) ::
          id in EligibleIds(kind, before, {}, since);
    }
  }

  /** Everything listed was stuck at this reading of the clock. */
  ghost predicate WereStuck(kind: Kind, reaped: seq<Row>,
      now: Time) { forall r | r in reaped :: Eligible(kind, r, now) }

  /** Nothing is stuck now, and all that was stuck at the start has been reaped. */
  ghost predicate CaughtUp(kind: Kind, before: Rows, rows: Rows, reaped: seq<Row>, now: Time, since: Time) {
    EligibleIds(kind, rows, {}, now) == {} && EligibleIds(kind, before, {}, since) <= Ids(reaped)
  }

  /** What a tick has reaped so far, and the table it left. */
  ghost predicate Reaped(kind: Kind, before: Rows, rows: Rows, reaped: seq<Row>, since: Time) {
    && WellKeyed(rows) && Gathered(kind, before, reaped) && Requeued(before, rows, Ids(reaped), since)
    && Ids(reaped) <= before.Keys
  }

  lemma ReapedFew(kind: Kind, before: Rows, rows: Rows, reaped: seq<Row>, since: Time)
    requires Reaped(kind, before, rows, reaped, since)
    ensures |Ids(reaped)| <= |before| && WellKeyed(rows)
  {
    FewerThan(Ids(reaped), before.Keys);
  }

  lemma NothingYet(kind: Kind, before: Rows, since: Time)
    requires WellKeyed(before)
    ensures Reaped(kind, before, before, [], since) && WereStuck(kind, [], since)
  {
  }

  /** What the reaper queued since the tick began is out of its reach while the window lasts. */
  lemma ReapedAreOut(kind: Kind, before: Rows, rows: Rows, ids: set<Id>, now: Time, since: Time)
    requires kind.Reap? && now <= since + kind.inflightAfter && Requeued(before, rows, ids, since)
    ensures forall id | id in ids && id in rows :: !Eligible(kind, rows[id], now)
  {
  }

  /** What was stuck when the tick began and is still not reaped is as it was, and stuck now. */
  lemma StuckStaysStuck(kind: Kind, before: Rows, rows: Rows, ids: set<Id>, now: Time, since: Time)
    requires kind.Reap? && since <= now && Requeued(before, rows, ids, since)
    ensures EligibleIds(kind, before, {}, since) - ids <= EligibleIds(kind, rows, {}, now)
  {
  }

  /** One round of the reaper, within the window. */
  lemma ReapRound(kind: Kind, before: Rows, rows: Rows, reaped: seq<Row>, batch: seq<Row>,
      now: Time, limit: int, stamp: Time, since: Time)
    requires kind.Reap? && limit > 0 && since <= now <= stamp && now <= since + kind.inflightAfter
    requires Reaped(kind, before, rows, reaped, since) && WereStuck(kind, reaped, now)
    requires IsBatch(kind, rows, {}, now, limit, batch)
    ensures var all, rows' := reaped + batch, Requeue(rows, Ids(batch), stamp);
            && Reaped(kind, before, rows', all, since)
            && WereStuck(kind, all, now)
            && before.Keys - Ids(all) <= before.Keys - Ids(reaped) && |Ids(reaped)| <= |Ids(all)|
            && (batch != [] ==> before.Keys - Ids(all) < before.Keys - Ids(reaped) && |Ids(reaped)| < |Ids(all)|)
            && (|batch| < limit ==> CaughtUp(kind, before, rows', all, now, since))
  {
    var all, rows' := reaped + batch, Requeue(rows, Ids(batch), stamp);
    ReapedAreOut(kind, before, rows, Ids(reaped), now, since);
    Round(kind, before, rows, reaped, batch, now, limit, stamp, since);
    BatchIsEligible(kind, rows, now, limit, batch);
    MoreWereStuck(kind, reaped, batch, now);
    SameKeys(before, rows, Ids(reaped), since);
    hide Gathered, IsBatch, Eligible, Requeued, WereStuck, CaughtUp;
    FewerThan(Ids(reaped), Ids(all));
    if batch != [] {
      assert batch[0].draft.id in Ids(batch);
      FewerThan(Ids(reaped) + {batch[0].draft.id}, Ids(all));
    }
    if |batch| < limit { ShortRound(kind, before, rows, reaped, batch, now, stamp, since); }
  }

  lemma MoreWereStuck(kind: Kind, reaped: seq<Row>, batch: seq<Row>, now: Time)
    requires WereStuck(kind, reaped, now) && forall r | r in batch :: Eligible(kind, r, now)
    ensures WereStuck(kind, reaped + batch, now)
  {
  }

  /** A round that took everything it could find is the last. */
  lemma ShortRound(kind: Kind, before: Rows, rows: Rows, reaped: seq<Row>, batch: seq<Row>,
      now: Time, stamp: Time, since: Time)
    requires kind.Reap? && since <= now && now <= since + kind.inflightAfter
    requires Requeued(before, rows, Ids(reaped), since) && EligibleIds(kind, rows, {}, now) <= Ids(batch)
    requires Requeued(before, Requeue(rows, Ids(batch), stamp), Ids(reaped + batch), since)
    ensures CaughtUp(kind, before, Requeue(rows, Ids(batch), stamp), reaped + batch, now, since)
  {
    IdsAppend(reaped, batch);
    StuckStaysStuck(kind, before, rows, Ids(reaped), now, since);
    ReapedAreOut(kind, before, Requeue(rows, Ids(batch), stamp), Ids(reaped + batch), now, since);
    RequeueLeavesOthers(kind, rows, Ids(batch), stamp, now);
    hide Eligible, Requeued;
  }

  lemma SameKeys(before: Rows, rows: Rows, ids: set<Id>, since: Time)
    requires Requeued(before, rows, ids, since)
    ensures rows.Keys == before.Keys
  {
  }

  lemma RequeueLeavesOthers(kind: Kind, rows: Rows, ids: set<Id>, stamp: Time, now: Time)
    ensures EligibleIds(kind, Requeue(rows, ids, stamp), {}, now) - ids <= EligibleIds(kind, rows, {}, now)
  {
  }

  /** What was stuck at an earlier reading of the clock is stuck at a later one. */
  lemma StuckLonger(kind: Kind, rows: seq<Row>, now: Time, later: Time)
    requires kind.Reap? && now <= later && WereStuck(kind, rows, now)
    ensures WereStuck(kind, rows, later)
  {
  }

  lemma BatchIsEligible(kind: Kind, rows: Rows, now: Time, limit: int, batch: seq<Row>)
    requires IsBatch(kind, rows, {}, now, limit, batch)
    ensures forall r | r in batch :: r.draft.id in EligibleIds(kind, rows, {}, now) && rows[r.draft.id] == r
    ensures forall r | r in batch :: Eligible(kind, r, now)
  {
  }

  lemma FewerThan(a: set<Id>, b: set<Id>)
    requires a <= b
    ensures |a| <= |b|
  {
    assert b == a + (b - a);
  }

  // ----- A tick that outlasts the window -----

  /** A reaped row is out of reach exactly until its stamp is more than the window ago. */
  lemma ReapedAgainIff(kind: Kind, rows: Rows, ids: set<Id>, stamp: Time, id: Id, now: Time)
    requires kind.Reap? && id in rows && id in ids
    ensures Eligible(kind, Requeue(rows, ids, stamp)[id], now) <==> stamp + kind.inflightAfter < now
  {
  }

  /** The table after so many rounds that each took every row. */
  ghost function AfterRounds(rows: Rows, stampAt: nat -> Time, rounds: nat): Rows {
    if rounds == 0 then rows
    else Requeue(AfterRounds(rows, stampAt, rounds - 1), rows.Keys, stampAt(rounds - 1))
  }

  lemma {:induction false} StuckEachRound(kind: Kind, rows: Rows, nowAt: nat -> Time, stampAt: nat -> Time, rounds: nat)
    requires kind.Reap? && forall id | id in rows :: Eligible(kind, rows[id], nowAt(0))
    requires forall i: nat :: stampAt(i) + kind.inflightAfter < nowAt(i + 1)
    ensures var t := AfterRounds(rows, stampAt, rounds);
            t.Keys == rows.Keys
            && forall id | id in rows :: t[id].draft == rows[id].draft && Eligible(kind, t[id], nowAt(rounds))
  {
    if rounds > 0 {
      StuckEachRound(kind, rows, nowAt, stampAt, rounds - 1);
      var before := AfterRounds(rows, stampAt, rounds - 1);
      assert stampAt(rounds - 1) + kind.inflightAfter < nowAt(rounds - 1 + 1);
      forall id | id in rows ensures Eligible(kind, AfterRounds(rows, stampAt, rounds)[id], nowAt(rounds)) {
        ReapedAgainIff(kind, before, rows.Keys, stampAt(rounds - 1), id, nowAt(rounds));
      }
    }
  }

  /** When each round outlasts the window, one stuck row and a batch size of one are enough: every
      round reaps that row again in a full batch, and the tick never ends. */
  lemma LongTickNeverEnds(kind: Kind, r: Row, nowAt: nat -> Time, stampAt: nat -> Time, rounds: nat)
    requires kind.Reap? && Eligible(kind, r, nowAt(0))
    requires forall i: nat :: stampAt(i) + kind.inflightAfter < nowAt(i + 1)
    ensures var id := r.draft.id;
            var t := AfterRounds(map[id := r], stampAt, rounds);
            && id in t && IsBatch(kind, t, {}, nowAt(rounds), 1, [t[id]])
            && AfterRounds(map[id := r], stampAt, rounds + 1) == Requeue(t, Ids([t[id]]), stampAt(rounds))
  {
    var id := r.draft.id;
    var rows := map[id := r];
    StuckEachRound(kind, rows, nowAt, stampAt, rounds);
    var t := AfterRounds(rows, stampAt, rounds);
    assert rows.Keys == {id} && t[id].draft.id == id;
    assert Ids([t[id]]) == {id};
  }
}
