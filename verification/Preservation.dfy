/** Each step keeps the invariant, and so does each run.

    The lemmas come in the order of the steps. For each step there are lemmas about the parts of the
    state it writes, one for each invariant that speaks of them, and one lemma, named after the step,
    that puts them together: InsertKeeps, LookupKeeps, PublishKeeps, CancelKeeps, MarkQueuedKeeps,
    ClaimKeeps, DeliverKeeps, LeaveKeeps, DeadLetterKeeps, FinishKeeps, SelectKeeps, RepublishKeeps
    and CommitKeeps. StepKeeps, RunKeeps and ReachableInv at the end are what other modules use. */
module Preservation {
  import opened Domain
  import opened Table
  import opened Protocol
  import opened Invariants

  // ----- What only reads the history -----

  /** Acceptances are never taken back, and API writes are counted elsewhere. */
  ghost predicate Grows(hist: Hists, hist': Hists) {
    && hist.Keys <= hist'.Keys
    && forall id | id in hist :: hist[id].accepts <= hist'[id].accepts && hist[id].apiWrites == hist'[id].apiWrites
  }

  lemma StaysEarned(cfg: Config, s: State, hist': Hists)
    requires s.hist.Keys <= hist'.Keys && forall id | id in s.hist :: s.hist[id].accepts <= hist'[id].accepts
    ensures EarnedRows(cfg, s.hist, s.dlq, s.rows) ==> EarnedRows(cfg, hist', s.dlq, s.rows)
    ensures EarnedPhases(cfg, s.hist, s.dlq, s.workers) ==> EarnedPhases(cfg, hist', s.dlq, s.workers)
  {
  }

  lemma StaysWrittenOnce(hist: Hists, hist': Hists, requests: Requests)
    requires Grows(hist, hist') && hist'.Keys == hist.Keys && WrittenOnce(hist, requests)
    ensures WrittenOnce(hist', requests)
  {
  }

  // ----- Inserting -----

  /** What an insert does to the table and to the request that made it. */
  lemma InsertAdds(s: State, rid: nat, single: bool, ds: seq<Draft>)
    requires Keyed(s.rows) && FreshIds(s.rows, ds)
    ensures var t := DoInsert(s, rid, single, ds);
            && Keyed(t.rows) && SameDrafts(s.rows, t.rows) && Extends(s.rows, t.rows)
            && (forall id | id in t.rows && id !in s.rows :: t.rows[id] == FreshRow(t.rows[id].draft))
            && (forall d | d in t.requests[rid].added :: d.id !in s.rows && d.id in t.rows && t.rows[d.id].draft == d)
            && (forall d | d in t.requests[rid].conflicts :: KeyTaken(t.rows, d.key))
            && t.hist.Keys == t.rows.Keys
            && (forall id | id in t.hist :: t.hist[id] == if id in s.hist then s.hist[id] else UNTOUCHED)
            && t == s.(rows := t.rows, hist := t.hist, requests := s.requests[rid := t.requests[rid]],
                replies := t.replies)
            && t.requests[rid].Inserted?
            && t.replies == s.replies + set d | d in t.requests[rid].added :: Reply(Created, d, d.id)
  {
    InsertAllEffect(s.rows, ds);
    var rows := InsertAll(s.rows, ds);
    forall id | id in rows && id !in s.rows ensures rows[id] == FreshRow(rows[id].draft) {
      assert Settled(rows, rows[id].draft);
    }
    assert forall d | d in ds :: Settled(rows, d);
  }

  lemma InsertKeepsTallies(cfg: Config, s: State, t: State, rid: nat)
    requires Tallied(s.rows, s.hist) && Locks(s.rows, s.txs) && Announced(s.rows, s.published)
    requires EarnedRows(cfg, s.hist, s.dlq, s.rows) && EarnedPhases(cfg, s.hist, s.dlq, s.workers)
    requires Extends(s.rows, t.rows) && t.hist.Keys == t.rows.Keys
    requires forall id | id in t.rows && id !in s.rows :: t.rows[id] == FreshRow(t.rows[id].draft)
    requires forall id | id in t.hist :: t.hist[id] == if id in s.hist then s.hist[id] else UNTOUCHED
    ensures Tallied(t.rows, t.hist) && Locks(t.rows, s.txs) && Announced(t.rows, s.published)
    ensures EarnedRows(cfg, t.hist, s.dlq, t.rows) && EarnedPhases(cfg, t.hist, s.dlq, s.workers)
  {
    forall x | x in s.txs ensures Holds(t.rows, s.txs[x]) { assert Holds(s.rows, s.txs[x]); }
  }

  lemma InsertKeepsCounts(s: State, t: State)
    requires s.hist.Keys == s.rows.Keys && Counted(s.rows, s.hist, s.workers)
    requires Extends(s.rows, t.rows) && t.hist.Keys == t.rows.Keys
    requires forall id | id in t.hist :: t.hist[id] == if id in s.hist then s.hist[id] else UNTOUCHED
    ensures Counted(t.rows, t.hist, s.workers)
  {
    forall id | id in t.rows && id in t.hist ensures Counts(t.rows[id], t.hist[id], |OpenClaims(s.workers, id)|) {
      if id in s.rows {
        assert Counts(s.rows[id], s.hist[id], |OpenClaims(s.workers, id)|);
      } else {
        assert OpenClaims(s.workers, id) == {};
      }
    }
  }

  lemma InsertIsHeldOnce(s: State, t: State, rid: nat)
    requires WrittenOnce(s.hist, s.requests) && Asked(s.rows, s.published, s.requests) && s.hist.Keys == s.rows.Keys
    requires rid in t.requests && t.requests == s.requests[rid := t.requests[rid]] && t.requests[rid].Inserted?
    requires forall d | d in t.requests[rid].added :: d.id !in s.rows && d.id in t.rows
    requires s.hist.Keys <= t.hist.Keys && t.hist.Keys == t.rows.Keys
    requires forall id | id in t.hist :: t.hist[id] == if id in s.hist then s.hist[id] else UNTOUCHED
    ensures WrittenOnce(t.hist, t.requests)
  {
    forall q | q in s.requests && s.requests[q].Inserted?
      ensures IdsOf(s.requests[q].added) !! IdsOf(t.requests[rid].added)
    {
      assert GenuineRequest(s.rows, s.published, s.requests[q]);
    }
  }

  lemma InsertIsAnswered(s: State, t: State, rid: nat)
    requires Asked(t.rows, s.published, s.requests) && Answered(t.rows, s.replies)
    requires rid in t.requests && t.requests == s.requests[rid := t.requests[rid]] && t.requests[rid].Inserted?
    requires forall d | d in t.requests[rid].added :: d.id in t.rows && t.rows[d.id].draft == d
    requires forall d | d in t.requests[rid].conflicts :: KeyTaken(t.rows, d.key)
    requires t.replies == s.replies + set d | d in t.requests[rid].added :: Reply(Created, d, d.id)
    ensures Asked(t.rows, s.published, t.requests) && Answered(t.rows, t.replies)
  {
  }

  lemma InsertKeeps(cfg: Config, s: State, rid: nat, single: bool, ds: seq<Draft>)
    requires Inv(cfg, s) && CanInsert(s, rid, single, ds)
    ensures Inv(cfg, DoInsert(s, rid, single, ds))
  {
    hide Keyed, Locks, Picks, Records, Envelopes, Announced, Holders, Asked, Answered, Counted, EarnedRows,
      EarnedPhases, WrittenOnce, DoInsert;
    var t := DoInsert(s, rid, single, ds);
    InsertAdds(s, rid, single, ds);
    InsertKeepsTallies(cfg, s, t, rid);
    InsertKeepsCounts(s, t);
    InsertIsHeldOnce(s, t, rid);
    DraftsSuffice(s, t.rows);
    InsertIsAnswered(s, t, rid);
  }

  // ----- Lookup and publish -----

  lemma LookupKeeps(cfg: Config, s: State, rid: nat, d: Draft)
    requires Inv(cfg, s) && CanLookup(s, rid, d)
    ensures Inv(cfg, DoLookup(s, rid, d))
  {
    hide Keyed, Tallied, Locks, Picks, Records, Envelopes, Announced, Holders, Counted, EarnedRows, EarnedPhases;
    assert GenuineRequest(s.rows, s.published, s.requests[rid]);
  }

  lemma PublishingKeepsRecords(s: State, rid: nat, ok: bool, written: set<Id>)
    requires Records(s.rows, s.clock, s.published) && Asked(s.rows, s.published, s.requests)
    requires CanPublish(s, rid, ok, written)
    ensures var t := DoPublish(s, rid, ok, written);
            Records(s.rows, s.clock, t.published) && Asked(s.rows, t.published, t.requests)
  {
    var t := DoPublish(s, rid, ok, written);
    var pending := PendingOf(s.requests[rid].added);
    PublishingDisturbsNothing(s, s.clock, t.published);
    assert GenuineRequest(s.rows, s.published, s.requests[rid]);
    forall id | id in written ensures id in s.rows && RecordOf(s.rows[id].draft) in t.published {
      var d :| d in pending && d.id == id;
      assert RecordOf(d) in RecordsOf(pending, written);
    }
  }

  lemma PublishingCounts(s: State, rid: nat, ok: bool, written: set<Id>)
    requires CanPublish(s, rid, ok, written) && Tallied(s.rows, s.hist) && Counted(s.rows, s.hist, s.workers)
    ensures var t := DoPublish(s, rid, ok, written); Tallied(s.rows, t.hist) && Counted(s.rows, t.hist, s.workers)
  {
    var t := DoPublish(s, rid, ok, written);
    forall id | id in s.rows && id in t.hist ensures Counts(s.rows[id], t.hist[id], |OpenClaims(s.workers, id)|) {
      assert Counts(s.rows[id], s.hist[id], |OpenClaims(s.workers, id)|);
    }
  }

  lemma PublishingWritesOnce(s: State, rid: nat, ok: bool, written: set<Id>)
    requires CanPublish(s, rid, ok, written) && WrittenOnce(s.hist, s.requests)
    ensures var t := DoPublish(s, rid, ok, written); WrittenOnce(t.hist, t.requests)
  {
    assert IdsOf(PendingOf(s.requests[rid].added)) <= IdsOf(s.requests[rid].added);
    assert forall d | d in s.requests[rid].added :: d.id in IdsOf(s.requests[rid].added);
    forall q, d | q in s.requests && q != rid && s.requests[q].Inserted? && d in s.requests[q].added
      ensures d.id !in IdsOf(s.requests[rid].added)
    {
      assert d.id in IdsOf(s.requests[q].added);
    }
  }

  lemma PublishKeeps(cfg: Config, s: State, rid: nat, ok: bool, written: set<Id>)
    requires Inv(cfg, s) && CanPublish(s, rid, ok, written)
    ensures Inv(cfg, DoPublish(s, rid, ok, written))
  {
    hide Keyed, Tallied, Locks, Picks, Records, Envelopes, Announced, Holders, Asked, Answered, Counted,
      EarnedRows, EarnedPhases, WrittenOnce;
    PublishingDisturbsNothing(s, s.clock, DoPublish(s, rid, ok, written).published);
    PublishingKeepsRecords(s, rid, ok, written);
    PublishingCounts(s, rid, ok, written);
    PublishingWritesOnce(s, rid, ok, written);
    StaysEarned(cfg, s, DoPublish(s, rid, ok, written).hist);
  }

  // ----- Updates of the table -----

  lemma UpdateKeeps(s: State, rows': Rows)
    requires SameDrafts(s.rows, rows') && rows'.Keys == s.rows.Keys && Keyed(s.rows)
    ensures Keyed(rows')
    ensures Records(s.rows, s.clock, s.published) ==> Records(rows', s.clock, s.published)
    ensures Envelopes(s.rows, s.dlq) ==> Envelopes(rows', s.dlq)
    ensures Holders(s.rows, s.published, s.workers) ==> Holders(rows', s.published, s.workers)
    ensures Asked(s.rows, s.published, s.requests) ==> Asked(rows', s.published, s.requests)
    ensures Answered(s.rows, s.replies) ==> Answered(rows', s.replies)
  {
    DraftsSuffice(s, rows');
  }

  /** A change of an unlocked row leaves every transaction what it selected. */
  lemma UnlockedChange(rows: Rows, txs: Txs, id: Id, r: Row)
    requires Locks(rows, txs) && !Locked(txs, id)
    ensures Locks(rows[id := r], txs)
  {
    forall t | t in txs ensures Holds(rows[id := r], txs[t]) { assert Holds(rows, txs[t]); }
  }

  /** The row is as before, or was not taken and is now cancelled, or queued with its message published. */
  ghost predicate QuietMove(published: set<Record>, r: Row, r': Row) {
    && r'.draft == r.draft && r'.attempts == r.attempts
    && (r'.status == r.status
        || (!Taken(r.status) && (r'.status == Cancelled || (r'.status == Queued && RecordOf(r.draft) in published))))
  }

  lemma QuietMoveKeeps(cfg: Config, s: State, rows': Rows)
    requires Tallied(s.rows, s.hist) && Announced(s.rows, s.published) && EarnedRows(cfg, s.hist, s.dlq, s.rows)
    requires rows'.Keys == s.rows.Keys && forall id | id in s.rows :: QuietMove(s.published, s.rows[id], rows'[id])
    ensures SameDrafts(s.rows, rows')
    ensures Tallied(rows', s.hist) && Announced(rows', s.published) && EarnedRows(cfg, s.hist, s.dlq, rows')
  {
    assert forall id | id in rows' :: QuietMove(s.published, s.rows[id], rows'[id]);
  }

  lemma QuietMoveKeepsCounts(s: State, rows': Rows)
    requires Counted(s.rows, s.hist, s.workers)
    requires rows'.Keys == s.rows.Keys && forall id | id in s.rows :: QuietMove(s.published, s.rows[id], rows'[id])
    ensures Counted(rows', s.hist, s.workers)
  {
    forall id | id in rows' && id in s.hist ensures Counts(rows'[id], s.hist[id], |OpenClaims(s.workers, id)|) {
      assert QuietMove(s.published, s.rows[id], rows'[id]);
      assert Counts(s.rows[id], s.hist[id], |OpenClaims(s.workers, id)|);
    }
  }

  lemma CancelKeeps(cfg: Config, s: State, id: Id, stamp: Time)
    requires Inv(cfg, s) && CanCancel(s, id, stamp)
    ensures Inv(cfg, s.(rows := s.rows[id := CancelledRow(s.rows[id], stamp)]))
  {
    hide Keyed, Tallied, Locks, Picks, Records, Envelopes, Announced, Holders, Asked, Answered, Counted,
      EarnedRows, EarnedPhases, WrittenOnce;
    var rows' := s.rows[id := CancelledRow(s.rows[id], stamp)];
    QuietMoveKeeps(cfg, s, rows');
    QuietMoveKeepsCounts(s, rows');
    UpdateKeeps(s, rows');
    UnlockedChange(s.rows, s.txs, id, rows'[id]);
  }

  lemma MarkingIsQuiet(s: State, rid: nat, stamp: Time)
    requires Asked(s.rows, s.published, s.requests) && CanMarkQueued(s, rid, stamp)
    ensures var rows' := DoMarkQueued(s, rid, stamp).rows;
            rows'.Keys == s.rows.Keys && forall id | id in s.rows :: QuietMove(s.published, s.rows[id], rows'[id])
  {
    assert GenuineRequest(s.rows, s.published, s.requests[rid]);
  }

  lemma MarkingKeepsLocks(s: State, rid: nat, stamp: Time)
    requires Locks(s.rows, s.txs) && CanMarkQueued(s, rid, stamp)
    ensures Locks(DoMarkQueued(s, rid, stamp).rows, s.txs)
  {
    var t := DoMarkQueued(s, rid, stamp);
    forall x | x in s.txs ensures Holds(t.rows, s.txs[x]) {
      assert Holds(s.rows, s.txs[x]);
      forall id | id in s.txs[x].picked ensures t.rows[id] == s.rows[id] { assert Locked(s.txs, id); }
    }
  }

  /** A request that goes away takes only obligations with it. */
  lemma RequestLeaves(rows: Rows, published: set<Record>, hist: Hists, requests: Requests, rid: nat)
    ensures Asked(rows, published, requests) ==> Asked(rows, published, requests - {rid})
    ensures WrittenOnce(hist, requests) ==> WrittenOnce(hist, requests - {rid})
  {
  }

  lemma MarkQueuedKeeps(cfg: Config, s: State, rid: nat, stamp: Time)
    requires Inv(cfg, s) && CanMarkQueued(s, rid, stamp)
    ensures Inv(cfg, DoMarkQueued(s, rid, stamp))
  {
    hide Keyed, Tallied, Locks, Picks, Records, Envelopes, Announced, Holders, Asked, Answered, Counted,
      EarnedRows, EarnedPhases, WrittenOnce;
    MarkingIsQuiet(s, rid, stamp);
    var rows' := DoMarkQueued(s, rid, stamp).rows;
    QuietMoveKeeps(cfg, s, rows');
    QuietMoveKeepsCounts(s, rows');
    UpdateKeeps(s, rows');
    MarkingKeepsLocks(s, rid, stamp);
    RequestLeaves(rows', s.published, s.hist, s.requests, rid);
  }

  // ----- Claims -----

  lemma OpenSplit(workers: Workers, wid: nat, id: Id)
    ensures |OpenClaims(workers, id)|
         == |OpenClaims(workers - {wid}, id)| + if wid in workers && Unspent(workers[wid], id) then 1 else 0
  {
    var rest := OpenClaims(workers - {wid}, id);
    if wid in workers && Unspent(workers[wid], id) {
      assert OpenClaims(workers, id) == rest + {wid};
    } else {
      assert OpenClaims(workers, id) == rest;
    }
  }

  lemma ClaimKeepsCounts(s: State, wid: nat, w: Worker, r: Row, h: History)
    requires Counted(s.rows, s.hist, s.workers) && wid !in s.workers
    requires w.msg.id in s.rows && w.msg.id in s.hist && !Taken(s.rows[w.msg.id].status) && r.status == Processing
    requires h == s.hist[w.msg.id].(claims := s.hist[w.msg.id].claims + 1)
    ensures Counted(s.rows[w.msg.id := r], s.hist[w.msg.id := h], s.workers[wid := w])
  {
    var rows', hist', workers' := s.rows[w.msg.id := r], s.hist[w.msg.id := h], s.workers[wid := w];
    assert workers' - {wid} == s.workers - {wid} == s.workers;
    forall id | id in rows' && id in hist' ensures Counts(rows'[id], hist'[id], |OpenClaims(workers', id)|) {
      assert Counts(s.rows[id], s.hist[id], |OpenClaims(s.workers, id)|);
      OpenSplit(workers', wid, id);
    }
  }

  /** What a pool fetches from its topics is its own channel's, and copies a row. */
  lemma FetchedIsGenuine(s: State, pool: Channel, priority: Priority, msg: Message)
    requires Records(s.rows, s.clock, s.published) && Record(TopicFor(pool, priority), msg) in s.published
    ensures msg.id in s.rows && msg == MessageOf(s.rows[msg.id].draft) && pool == s.rows[msg.id].draft.channel
    ensures RecordOf(s.rows[msg.id].draft) in s.published && DueBy(s.rows[msg.id].draft, s.clock)
    // field by field
    ensures var d := s.rows[msg.id].draft;
            && msg.recipient == d.recipient && msg.content == d.content && msg.channel == d.channel == pool
            && msg.priority == d.priority == priority && msg.createdAt == d.createdAt
            && (d.scheduledAt.Some? ==> d.scheduledAt.value <= s.clock)
  {
    var r := Record(TopicFor(pool, priority), msg);
    assert Genuine(s.rows, s.clock, r);
    TopicsAreDistinct(pool, priority, s.rows[msg.id].draft.channel, s.rows[msg.id].draft.priority);
  }

  lemma ClaimKeepsTallies(s: State, id: Id, stamp: Time, h: History)
    requires id in s.rows && id in s.hist && RecordOf(s.rows[id].draft) in s.published
    requires h == s.hist[id].(claims := s.hist[id].claims + 1)
    requires Tallied(s.rows, s.hist) && Announced(s.rows, s.published)
    ensures var rows' := s.rows[id := ClaimedRow(s.rows[id], stamp)];
            Tallied(rows', s.hist[id := h]) && Announced(rows', s.published)
  {
  }

  lemma ClaimKeepsEarned(cfg: Config, s: State, wid: nat, w: Worker, r: Row)
    requires w.msg.id in s.rows && r.status == Processing && w.phase.Waiting?
    requires r.draft == s.rows[w.msg.id].draft && RecordOf(r.draft) in s.published
    requires w.msg == MessageOf(r.draft) && w.pool == r.draft.channel
    requires Holders(s.rows, s.published, s.workers)
    requires EarnedRows(cfg, s.hist, s.dlq, s.rows) && EarnedPhases(cfg, s.hist, s.dlq, s.workers)
    ensures Holders(s.rows, s.published, s.workers[wid := w])
    ensures EarnedRows(cfg, s.hist, s.dlq, s.rows[w.msg.id := r])
        && EarnedPhases(cfg, s.hist, s.dlq, s.workers[wid := w])
  {
  }

  lemma ClaimKeeps(cfg: Config, s: State, wid: nat, pool: Channel, priority: Priority, msg: Message, stamp: Time)
    requires Inv(cfg, s) && CanClaim(s, wid, pool, priority, msg, stamp)
    ensures Inv(cfg, DoClaim(s, wid, pool, msg, stamp))
  {
    hide Keyed, Tallied, Locks, Picks, Records, Envelopes, Announced, Holders, Asked, Answered, Counted,
      EarnedRows, EarnedPhases, WrittenOnce;
    var t := DoClaim(s, wid, pool, msg, stamp);
    FetchedIsGenuine(s, pool, priority, msg);
    ClaimKeepsTallies(s, msg.id, stamp, t.hist[msg.id]);
    ClaimKeepsCounts(s, wid, t.workers[wid], t.rows[msg.id], t.hist[msg.id]);
    ClaimKeepsEarned(cfg, s, wid, t.workers[wid], t.rows[msg.id]);
    StaysEarned(cfg, s.(rows := t.rows, workers := t.workers), t.hist);
    StaysWrittenOnce(s.hist, t.hist, s.requests);
    UpdateKeeps(s.(workers := t.workers), t.rows);
    UnlockedChange(s.rows, s.txs, msg.id, t.rows[msg.id]);
  }

  // ----- Workers past their claim -----

  lemma DeliverKeepsCounts(cfg: Config, s: State, wid: nat, action: Action)
    requires Counted(s.rows, s.hist, s.workers) && CanDeliver(cfg, s, wid, action)
    ensures var t := DoDeliver(cfg, s, wid, action); Counted(s.rows, t.hist, t.workers)
  {
    var t := DoDeliver(cfg, s, wid, action);
    assert t.workers - {wid} == s.workers - {wid};
    forall id | id in s.rows && id in t.hist ensures Counts(s.rows[id], t.hist[id], |OpenClaims(t.workers, id)|) {
      assert Counts(s.rows[id], s.hist[id], |OpenClaims(s.workers, id)|);
      OpenSplit(s.workers, wid, id);
      OpenSplit(t.workers, wid, id);
    }
  }

  /** Only an acceptance, or a loop that never ran, leads to the accepted phase. */
  lemma DeliverKeepsEarned(cfg: Config, s: State, wid: nat, action: Action)
    requires CanDeliver(cfg, s, wid, action) && Holders(s.rows, s.published, s.workers)
    requires EarnedPhases(cfg, DoDeliver(cfg, s, wid, action).hist, s.dlq, s.workers)
    ensures var t := DoDeliver(cfg, s, wid, action);
            Holders(s.rows, s.published, t.workers) && EarnedPhases(cfg, t.hist, s.dlq, t.workers)
  {
    assert GenuineWorker(s.rows, s.published, s.workers[wid]);
  }

  lemma DeliverGrows(cfg: Config, s: State, wid: nat, action: Action)
    requires CanDeliver(cfg, s, wid, action) && Tallied(s.rows, s.hist)
    ensures var hist' := DoDeliver(cfg, s, wid, action).hist;
            Tallied(s.rows, hist') && Grows(s.hist, hist') && hist'.Keys == s.hist.Keys
  {
  }

  lemma DeliverKeeps(cfg: Config, s: State, wid: nat, action: Action)
    requires Inv(cfg, s) && CanDeliver(cfg, s, wid, action)
    ensures Inv(cfg, DoDeliver(cfg, s, wid, action))
  {
    hide Keyed, Tallied, Locks, Picks, Records, Envelopes, Announced, Holders, Asked, Answered, Counted,
      EarnedRows, EarnedPhases, WrittenOnce;
    DeliverGrows(cfg, s, wid, action);
    DeliverKeepsCounts(cfg, s, wid, action);
    StaysEarned(cfg, s, DoDeliver(cfg, s, wid, action).hist);
    DeliverKeepsEarned(cfg, s, wid, action);
    StaysWrittenOnce(s.hist, DoDeliver(cfg, s, wid, action).hist, s.requests);
  }

  /** A worker that leaves, with or without having written its row. */
  lemma LeaveKeepsCounts(s: State, wid: nat, rows': Rows)
    requires wid in s.workers && Counted(s.rows, s.hist, s.workers) && rows'.Keys == s.rows.Keys
    requires forall id | id in s.rows :: Taken(s.rows[id].status) ==> Taken(rows'[id].status)
    ensures Counted(rows', s.hist, s.workers - {wid})
  {
    forall id | id in rows' && id in s.hist ensures Counts(rows'[id], s.hist[id], |OpenClaims(s.workers - {wid}, id)|) {
      assert Counts(s.rows[id], s.hist[id], |OpenClaims(s.workers, id)|);
      OpenSplit(s.workers, wid, id);
    }
  }

  lemma WorkerLeaves(cfg: Config, s: State, wid: nat)
    ensures Holders(s.rows, s.published, s.workers) ==> Holders(s.rows, s.published, s.workers - {wid})
    ensures EarnedPhases(cfg, s.hist, s.dlq, s.workers) ==> EarnedPhases(cfg, s.hist, s.dlq, s.workers - {wid})
  {
  }

  /** A claim given up is counted, and nothing else changes. */
  lemma LeaveKeeps(cfg: Config, s: State, wid: nat)
    requires Inv(cfg, s) && HasWorker(s, wid)
    ensures Inv(cfg, DoLeave(s, wid))
  {
    hide Keyed, Locks, Picks, Records, Envelopes, Announced, Holders, Asked, Answered, Counted,
      EarnedRows, EarnedPhases, WrittenOnce;
    var t := DoLeave(s, wid);
    LeaveKeepsCounts(s, wid, s.rows);
    LeavingIsCounted(s, t, wid);
    WorkerLeaves(cfg, s, wid);
    StaysEarned(cfg, s.(workers := t.workers), t.hist);
    StaysWrittenOnce(s.hist, t.hist, s.requests);
  }

  lemma LeavingIsCounted(s: State, t: State, wid: nat)
    requires HasWorker(s, wid) && t == DoLeave(s, wid) && Counted(s.rows, s.hist, s.workers - {wid})
    ensures Counted(s.rows, t.hist, t.workers)
  {
    forall id | id in s.rows && id in t.hist ensures Counts(s.rows[id], t.hist[id], |OpenClaims(t.workers, id)|) {
      assert Counts(s.rows[id], s.hist[id], |OpenClaims(t.workers, id)|);
    }
  }

  /** The envelope alone: it is genuine, whether the write was acknowledged or not. */
  lemma EnvelopeKeeps(cfg: Config, s: State, wid: nat, written: set<Record>)
    requires Inv(cfg, s) && HasWorker(s, wid) && written <= {Envelope(s.workers[wid])}
    ensures Inv(cfg, s.(dlq := s.dlq + written))
  {
    hide Keyed, Tallied, Locks, Picks, Records, Announced, Asked, Answered, Counted, WrittenOnce;
    assert GenuineWorker(s.rows, s.published, s.workers[wid]);
  }

  lemma LetteredKeepsCounts(s: State, wid: nat, workers': Workers)
    requires HasWorker(s, wid) && s.workers[wid].phase.Failed? && Counted(s.rows, s.hist, s.workers)
    requires workers' == s.workers[wid := Moved(s.workers[wid], DeadLettered, s.clock)]
    ensures Counted(s.rows, s.hist, workers')
  {
    assert workers' - {wid} == s.workers - {wid};
    forall id | id in s.rows && id in s.hist ensures Counts(s.rows[id], s.hist[id], |OpenClaims(workers', id)|) {
      OpenSplit(s.workers, wid, id);
      OpenSplit(workers', wid, id);
    }
  }

  lemma LetteredKeepsCopies(cfg: Config, s: State, wid: nat, workers': Workers)
    requires HasWorker(s, wid) && Envelope(s.workers[wid]) in s.dlq
    requires workers' == s.workers[wid := Moved(s.workers[wid], DeadLettered, s.clock)]
    ensures Holders(s.rows, s.published, s.workers) ==> Holders(s.rows, s.published, workers')
    ensures EarnedPhases(cfg, s.hist, s.dlq, s.workers) ==> EarnedPhases(cfg, s.hist, s.dlq, workers')
  {
  }

  lemma LetteredKeeps(cfg: Config, s: State, wid: nat, workers': Workers)
    requires Inv(cfg, s) && HasWorker(s, wid) && s.workers[wid].phase.Failed? && Envelope(s.workers[wid]) in s.dlq
    requires workers' == s.workers[wid := Moved(s.workers[wid], DeadLettered, s.clock)]
    ensures Inv(cfg, s.(workers := workers'))
  {
    hide Keyed, Tallied, Locks, Picks, Records, Envelopes, Announced, Holders, Asked, Answered, Counted,
      EarnedRows, EarnedPhases, WrittenOnce;
    LetteredKeepsCounts(s, wid, workers');
    LetteredKeepsCopies(cfg, s, wid, workers');
  }

  lemma DeadLetterKeeps(cfg: Config, s: State, wid: nat, ok: bool, envelopes: set<Record>)
    requires Inv(cfg, s) && CanDeadLetter(s, wid, ok, envelopes)
    ensures Inv(cfg, DoDeadLetter(s, wid, ok, envelopes))
  {
    EnvelopeKeeps(cfg, s, wid, envelopes);
    hide Inv;
    var t := s.(dlq := s.dlq + envelopes);
    if ok {
      LetteredKeeps(cfg, t, wid, s.workers[wid := Moved(s.workers[wid], DeadLettered, s.clock)]);
    } else {
      LeaveKeeps(cfg, t, wid);
    }
  }

  lemma FinishKeepsTallies(cfg: Config, s: State, id: Id, r: Row)
    requires id in s.rows && r.draft == s.rows[id].draft && r.attempts == s.rows[id].attempts
    requires RecordOf(r.draft) in s.published
    requires (r.status == Sent && Accepts(cfg, s.hist, id)) || (r.status == Dead && EnvelopeOf(r.draft) in s.dlq)
    requires Tallied(s.rows, s.hist) && Announced(s.rows, s.published) && EarnedRows(cfg, s.hist, s.dlq, s.rows)
    ensures var rows' := s.rows[id := r];
            Tallied(rows', s.hist) && Announced(rows', s.published) && EarnedRows(cfg, s.hist, s.dlq, rows')
  {
  }

  lemma FinisherEarnedIt(cfg: Config, s: State, wid: nat)
    requires HasWorker(s, wid) && Holders(s.rows, s.published, s.workers)
    requires EarnedPhases(cfg, s.hist, s.dlq, s.workers)
    ensures RecordOf(Mine(s, wid).draft) in s.published
    ensures s.workers[wid].phase == Accepted ==> Accepts(cfg, s.hist, s.workers[wid].msg.id)
    ensures s.workers[wid].phase == DeadLettered ==> EnvelopeOf(Mine(s, wid).draft) in s.dlq
  {
    assert GenuineWorker(s.rows, s.published, s.workers[wid]);
  }

  lemma FinishKeeps(cfg: Config, s: State, wid: nat, r: Row)
    requires Inv(cfg, s) && HasWorker(s, wid) && !Locked(s.txs, s.workers[wid].msg.id)
    requires r.draft == Mine(s, wid).draft && r.attempts == Mine(s, wid).attempts
    requires (r.status == Sent && s.workers[wid].phase == Accepted)
        || (r.status == Dead && s.workers[wid].phase == DeadLettered)
    ensures Inv(cfg, DoFinish(s, wid, r))
  {
    hide Keyed, Tallied, Locks, Picks, Records, Envelopes, Announced, Holders, Asked, Answered, Counted,
      EarnedRows, EarnedPhases, WrittenOnce;
    var id, t := s.workers[wid].msg.id, DoFinish(s, wid, r);
    FinisherEarnedIt(cfg, s, wid);
    FinishKeepsTallies(cfg, s, id, r);
    UpdateKeeps(s, t.rows);
    UnlockedChange(s.rows, s.txs, id, r);
    LeaveKeepsCounts(s, wid, t.rows);
    WorkerLeaves(cfg, s.(rows := t.rows), wid);
  }

  // ----- Pollers -----

  lemma SelectLocks(cfg: Config, s: State, tid: nat, reap: bool, now: Time, stamp: Time, ids: set<Id>)
    requires Locks(s.rows, s.txs) && CanSelect(cfg, s, tid, reap, now, stamp, ids)
    ensures Locks(s.rows, DoSelect(cfg, s, tid, reap, stamp, ids).txs)
  {
    var t := DoSelect(cfg, s, tid, reap, stamp, ids);
    forall x | x in s.txs ensures s.txs[x].picked.Keys !! ids {
      forall id | id in s.txs[x].picked ensures id !in ids { assert Locked(s.txs, id); }
    }
    assert Holds(s.rows, t.txs[tid]);
  }

  lemma SelectPicksDue(cfg: Config, s: State, tid: nat, reap: bool, now: Time, stamp: Time, ids: set<Id>)
    requires Picks(s.clock, s.published, s.txs) && Announced(s.rows, s.published) && Tallied(s.rows, s.hist)
    requires Records(s.rows, s.clock, s.published) && WellKeyed(s.rows) && CanSelect(cfg, s, tid, reap, now, stamp, ids)
    ensures Picks(s.clock, s.published, DoSelect(cfg, s, tid, reap, stamp, ids).txs)
  {
    forall id | id in ids ensures DueBy(s.rows[id].draft, s.clock) {
      if reap && s.rows[id].status != Pending { assert Genuine(s.rows, s.clock, RecordOf(s.rows[id].draft)); }
    }
  }

  lemma SelectKeeps(cfg: Config, s: State, tid: nat, reap: bool, now: Time, stamp: Time, ids: set<Id>)
    requires Inv(cfg, s) && CanSelect(cfg, s, tid, reap, now, stamp, ids)
    ensures Inv(cfg, DoSelect(cfg, s, tid, reap, stamp, ids))
  {
    assert WellKeyed(s.rows);
    hide Keyed, Tallied, Locks, Picks, Records, Envelopes, Announced, Holders, Asked, Answered, Counted,
      EarnedRows, EarnedPhases, WrittenOnce;
    SelectLocks(cfg, s, tid, reap, now, stamp, ids);
    SelectPicksDue(cfg, s, tid, reap, now, stamp, ids);
  }

  lemma RepublishKeepsPicks(s: State, tid: nat, ok: bool, written: set<Id>)
    requires CanRepublish(s, tid, ok, written) && Locks(s.rows, s.txs) && WellKeyed(s.rows)
    requires Picks(s.clock, s.published, s.txs) && Records(s.rows, s.clock, s.published)
    ensures var t := DoRepublish(s, tid, ok, written);
            Locks(s.rows, t.txs) && Picks(s.clock, t.published, t.txs) && Records(s.rows, s.clock, t.published)
  {
    var t := DoRepublish(s, tid, ok, written);
    var tx := s.txs[tid];
    PublishingDisturbsNothing(s, s.clock, t.published);
    assert Holds(s.rows, tx) && GenuineTx(s.clock, s.published, tx);
    assert forall id | id in written :: RecordOf(tx.picked[id].draft) in RowRecords(tx.picked, written);
    forall x | x in t.txs ensures Holds(s.rows, t.txs[x]) { assert Holds(s.rows, s.txs[x]); }
  }

  lemma RepublishKeeps(cfg: Config, s: State, tid: nat, ok: bool, written: set<Id>)
    requires Inv(cfg, s) && CanRepublish(s, tid, ok, written)
    ensures Inv(cfg, DoRepublish(s, tid, ok, written))
  {
    assert WellKeyed(s.rows);
    hide Keyed, Tallied, Locks, Picks, Records, Envelopes, Announced, Holders, Asked, Answered, Counted,
      EarnedRows, EarnedPhases, WrittenOnce;
    PublishingDisturbsNothing(s, s.clock, DoRepublish(s, tid, ok, written).published);
    RepublishKeepsPicks(s, tid, ok, written);
  }

  lemma PickedIsHeld(rows: Rows, txs: Txs, tid: nat)
    requires Locks(rows, txs) && tid in txs
    ensures Holds(rows, txs[tid])
  {
  }

  lemma CommitKeepsLocks(s: State, tid: nat)
    requires CanCommit(s, tid) && Locks(s.rows, s.txs)
    ensures var t := DoCommit(s, tid); Locks(t.rows, t.txs)
  {
    var t := DoCommit(s, tid);
    forall x | x in t.txs ensures Holds(t.rows, t.txs[x]) {
      assert Holds(s.rows, s.txs[x]) && s.txs[x].picked.Keys !! s.txs[tid].picked.Keys;
    }
  }

  lemma CommitKeepsTallies(cfg: Config, s: State, tid: nat)
    requires CanCommit(s, tid) && Holds(s.rows, s.txs[tid]) && GenuineTx(s.clock, s.published, s.txs[tid])
    requires Tallied(s.rows, s.hist) && Announced(s.rows, s.published) && EarnedRows(cfg, s.hist, s.dlq, s.rows)
    ensures var t := DoCommit(s, tid);
            && SameDrafts(s.rows, t.rows) && t.rows.Keys == s.rows.Keys
            && Tallied(t.rows, t.hist) && Announced(t.rows, s.published) && EarnedRows(cfg, s.hist, s.dlq, t.rows)
            && Grows(s.hist, t.hist) && t.hist.Keys == s.hist.Keys
  {
  }

  lemma CommitKeepsCounts(s: State, tid: nat)
    requires CanCommit(s, tid) && Holds(s.rows, s.txs[tid]) && Counted(s.rows, s.hist, s.workers)
    ensures var t := DoCommit(s, tid); Counted(t.rows, t.hist, s.workers)
  {
    var t := DoCommit(s, tid);
    forall id | id in t.rows && id in t.hist ensures Counts(t.rows[id], t.hist[id], |OpenClaims(s.workers, id)|) {
      assert Counts(s.rows[id], s.hist[id], |OpenClaims(s.workers, id)|);
    }
  }

  lemma CommitKeeps(cfg: Config, s: State, tid: nat)
    requires Inv(cfg, s) && CanCommit(s, tid)
    ensures Inv(cfg, DoCommit(s, tid))
  {
    assert Holds(s.rows, s.txs[tid]) && GenuineTx(s.clock, s.published, s.txs[tid]);
    hide Keyed, Tallied, Locks, Picks, Records, Envelopes, Announced, Holders, Asked, Answered, Counted,
      EarnedRows, EarnedPhases, WrittenOnce;
    CommitKeepsLocks(s, tid);
    TxLeaves(s, tid);
    CommitKeepsTallies(cfg, s, tid);
    StaysEarned(cfg, s.(rows := DoCommit(s, tid).rows), DoCommit(s, tid).hist);
    StaysWrittenOnce(s.hist, DoCommit(s, tid).hist, s.requests);
    CommitKeepsCounts(s, tid);
    UpdateKeeps(s, DoCommit(s, tid).rows);
  }

  lemma TxLeaves(s: State, tid: nat)
    ensures Locks(s.rows, s.txs) ==> Locks(s.rows, s.txs - {tid})
    ensures Picks(s.clock, s.published, s.txs) ==> Picks(s.clock, s.published, s.txs - {tid})
  {
  }

  // ----- Steps and runs -----

  lemma StepKeeps(cfg: Config, s: State, step: Step)
    requires Inv(cfg, s) && Enabled(cfg, s, step)
    ensures Inv(cfg, Apply(cfg, s, step))
  {
    hide Keyed, Tallied, Locks, Picks, Records, Envelopes, Announced, Holders, Asked, Answered, Counted,
      EarnedRows, EarnedPhases, WrittenOnce;
    match step
    case Advance(to) => PublishingDisturbsNothing(s, to, s.published);
    case Cancel(id, stamp) => CancelKeeps(cfg, s, id, stamp);
    case Insert(rid, single, ds) => InsertKeeps(cfg, s, rid, single, ds);
    case Lookup(rid, d) => LookupKeeps(cfg, s, rid, d);
    case Publish(rid, ok, written) => PublishKeeps(cfg, s, rid, ok, written);
    case MarkQueued(rid, stamp) => MarkQueuedKeeps(cfg, s, rid, stamp);
    case Abandon(rid) => RequestLeaves(s.rows, s.published, s.hist, s.requests, rid);
    case Claim(wid, pool, priority, msg, stamp) => ClaimKeeps(cfg, s, wid, pool, priority, msg, stamp);
    case Deliver(wid, action) => DeliverKeeps(cfg, s, wid, action);
    case DeadLetter(wid, ok, envelopes) => DeadLetterKeeps(cfg, s, wid, ok, envelopes);
    case MarkSent(wid, providerId, stamp) => FinishKeeps(cfg, s, wid, SentRow(Mine(s, wid), providerId, stamp));
    case MarkDead(wid, error, stamp) => FinishKeeps(cfg, s, wid, DeadRow(Mine(s, wid), error, stamp));
    case Crash(wid) => LeaveKeeps(cfg, s, wid);
    case Select(tid, reap, now, stamp, ids) => SelectKeeps(cfg, s, tid, reap, now, stamp, ids);
    case Republish(tid, ok, written) => RepublishKeeps(cfg, s, tid, ok, written);
    case Commit(tid) => CommitKeeps(cfg, s, tid);
    case Rollback(tid) => TxLeaves(s, tid);
  }

  lemma {:induction false} RunKeeps(cfg: Config, s: State, steps: seq<Step>)
    requires Inv(cfg, s) && Valid(cfg, s, steps)
    ensures Inv(cfg, Run(cfg, s, steps))
    decreases |steps|
  {
    hide Inv;
    if steps != [] {
      StepKeeps(cfg, s, steps[0]);
      RunKeeps(cfg, Apply(cfg, s, steps[0]), steps[1..]);
    }
  }

  lemma ReachableInv(cfg: Config, s: State)
    requires Reachable(cfg, s)
    ensures Inv(cfg, s)
  {
    var steps :| Valid(cfg, INIT, steps) && Run(cfg, INIT, steps) == s;
    RunKeeps(cfg, INIT, steps);
  }
}
