/** The delivery protocol as a state machine: API requests, workers and poller transactions
    share one table and an unreliable log of published messages. Each step is one atomic action
    of one process; any process may stop at any point. */
module Protocol {
  import opened Domain
  import opened Table

  datatype Config = Config(maxAttempts: int, pendingAfter: Time, inflightAfter: Time, dispatchLimit: int,
      reapLimit: int)

  /** Where a worker that holds a claim stands. */
  datatype Phase = Waiting | Delivering(sends: nat) | Accepted | Failed | DeadLettered

  /** claimedAt is the updated_at the claim wrote; since when the worker is in its phase, and how
      much time it spent outside Sends and pauses before, only the theorems look at. */
  datatype Worker = Worker(pool: Channel, msg: Message, phase: Phase, claimedAt: Time, since: Time, spent: Time)

  /** An API request between its INSERT and its reply. */
  datatype Request =
    | Inserted(single: bool, added: set<Draft>, conflicts: set<Draft>)
    | Published(ids: set<Id>)

  /** An open poller transaction: the rows it selected FOR UPDATE, as they were then, and its now(). */
  datatype Tx = Tx(kind: Kind, picked: Rows, stamp: Time, published: bool)

  datatype Outcome = Created | Replayed | Mismatch | BatchDuplicate

  /** What a create was answered: the draft it carried and the row it was pointed to. */
  datatype Reply = Reply(outcome: Outcome, draft: Draft, id: Id)

  /** What happened to one notification so far; only the theorems look at it. */
  datatype History = History(claims: nat, sends: nat, accepts: nat, reaps: nat, apiWrites: nat, abandons: nat)

  const UNTOUCHED := History(0, 0, 0, 0, 0, 0)

  datatype State = State(
    clock: Time,
    rows: Rows,
    published: set<Record>,
    dlq: set<Record>,
    workers: map<nat, Worker>,
    requests: map<nat, Request>,
    txs: map<nat, Tx>,
    replies: set<Reply>,
    hist: map<Id, History>)

  const INIT := State(0, map[], {}, {}, map[], map[], map[], {}, map[])

  datatype Response = Accept | Reject | Retry

  /** What happens inside deliver: the limiter lets the job pass, a Send returns, a backoff is
      cut short, or the loop body never runs. */
  datatype Action = Admit | Send(response: Response) | Interrupt | SkipSending

  datatype Step =
    | Advance(to: Time)
    | Cancel(id: Id, stamp: Time)
    // API request rid
    | Insert(rid: nat, single: bool, drafts: seq<Draft>)
    | Lookup(rid: nat, draft: Draft)
    | Publish(rid: nat, ok: bool, written: set<Id>)
    | MarkQueued(rid: nat, stamp: Time)
    | Abandon(rid: nat)
    // worker wid
    | Claim(wid: nat, pool: Channel, priority: Priority, msg: Message, stamp: Time)
    | Deliver(wid: nat, action: Action)
    | DeadLetter(wid: nat, ok: bool, envelopes: set<Record>)
    | MarkSent(wid: nat, providerId: string, stamp: Time)
    | MarkDead(wid: nat, error: string, stamp: Time)
    | Crash(wid: nat)
    // poller transaction tid
    | Select(tid: nat, reap: bool, now: Time, stamp: Time, ids: set<Id>)
    | Republish(tid: nat, ok: bool, written: set<Id>)
    | Commit(tid: nat)
    | Rollback(tid: nat)

  /** A row selected FOR UPDATE by an open transaction: no other statement may change it. */
  ghost predicate Locked(txs: map<nat, Tx>, id: Id) {
    exists t :: t in txs && id in txs[t].picked
  }

  ghost function LockedIds(s: State): set<Id> { set id | id in s.rows && Locked(s.txs, id) }

  function KindOf(cfg: Config, reap: bool): Kind {
    if reap then Reap(cfg.pendingAfter, cfg.inflightAfter) else Dispatch
  }

  function LimitOf(cfg: Config, reap: bool): int { if reap then cfg.reapLimit else cfg.dispatchLimit }

  function IdsOf(ds: set<Draft>): set<Id> { set d | d in ds :: d.id }

  /** The handler publishes what was inserted as pending; scheduled rows wait for the scheduler. */
  function PendingOf(ds: set<Draft>): set<Draft> { set d | d in ds && d.scheduledAt.None? }

  function RecordsOf(ds: set<Draft>, ids: set<Id>): set<Record> { set d | d in ds && d.id in ids :: RecordOf(d) }

  function RowRecords(rows: Rows, ids: set<Id>): set<Record> {
    set id | id in rows && id in ids :: RecordOf(rows[id].draft)
  }

  // ----- API: insert, look conflicts up, publish, mark queued -----

  ghost predicate CanInsert(s: State, rid: nat, single: bool, ds: seq<Draft>) {
    && rid !in s.requests && |ds| > 0 && (single ==> |ds| == 1) && FreshIds(s.rows, ds)
    && forall d | d in ds :: d.createdAt <= s.clock && (d.scheduledAt.Some? ==> d.scheduledAt.value > d.createdAt)
  }

  ghost function DoInsert(s: State, rid: nat, single: bool, ds: seq<Draft>): State {
    var t := InsertAll(s.rows, ds);
    var added := set d | d in ds && d.id in t;
    s.(rows := t,
       requests := s.requests[rid := Inserted(single, added, set d | d in ds && d.id !in t)],
       replies := s.replies + (set d | d in added :: Reply(Created, d, d.id)),
       hist := map id | id in t :: if id in s.hist then s.hist[id] else UNTOUCHED)
  }

  ghost predicate CanLookup(s: State, rid: nat, d: Draft) {
    rid in s.requests && s.requests[rid].Inserted? && d in s.requests[rid].conflicts && KeyTaken(s.rows, d.key)
  }

  /** Only a single create compares payloads; a batch item is pointed to the holder unseen. */
  ghost function Found(rows: Rows, single: bool, d: Draft): Reply
    requires KeyTaken(rows, d.key)
  {
    var id := Holder(rows, d.key);
    var outcome :=
      if !single then BatchDuplicate
      else if rows[id].SamePayload(d.recipient, d.channel, d.content) then Replayed else Mismatch;
    Reply(outcome, d, id)
  }

  ghost function DoLookup(s: State, rid: nat, d: Draft): State
    requires CanLookup(s, rid, d)
  {
    var r := s.requests[rid];
    s.(requests := s.requests[rid := r.(conflicts := r.conflicts - {d})],
       replies := s.replies + {Found(s.rows, r.single, d)})
  }

  /** A failed write may still have reached the log in part. */
  ghost predicate CanPublish(s: State, rid: nat, ok: bool, written: set<Id>) {
    && rid in s.requests && s.requests[rid].Inserted? && s.requests[rid].conflicts == {}
    && var ids := IdsOf(PendingOf(s.requests[rid].added)); ids != {} && written <= ids && (ok ==> written == ids)
  }

  ghost function DoPublish(s: State, rid: nat, ok: bool, written: set<Id>): State
    requires CanPublish(s, rid, ok, written)
  {
    var pending := PendingOf(s.requests[rid].added);
    s.(published := s.published + RecordsOf(pending, written),
       requests := if ok then s.requests[rid := Published(IdsOf(pending))] else s.requests - {rid},
       hist := map id | id in s.hist ::
         if id in IdsOf(pending) then s.hist[id].(apiWrites := s.hist[id].apiWrites + 1) else s.hist[id])
  }

  ghost predicate CanMarkQueued(s: State, rid: nat, stamp: Time) {
    && rid in s.requests && s.requests[rid].Published? && stamp <= s.clock
    && forall id | id in s.requests[rid].ids && id in s.rows && s.rows[id].status == Pending :: !Locked(s.txs, id)
  }

  ghost function DoMarkQueued(s: State, rid: nat, stamp: Time): State
    requires CanMarkQueued(s, rid, stamp)
  {
    s.(rows := Table.MarkQueued(s.rows, s.requests[rid].ids, stamp), requests := s.requests - {rid})
  }

  ghost predicate CanCancel(s: State, id: Id, stamp: Time) {
    stamp <= s.clock && id in s.rows && Cancellable(s.rows[id].status) && !Locked(s.txs, id)
  }

  // ----- Workers: claim, deliver, finish -----

  /** A pool reads its own channel's three topics; the claim is the conditional UPDATE. */
  ghost predicate CanClaim(s: State, wid: nat, pool: Channel, priority: Priority, msg: Message, stamp: Time) {
    && wid !in s.workers && stamp <= s.clock
    && Record(TopicFor(pool, priority), msg) in s.published
    && msg.id in s.rows && msg.id in s.hist && Claimable(s.rows[msg.id].status) && !Locked(s.txs, msg.id)
  }

  ghost function DoClaim(s: State, wid: nat, pool: Channel, msg: Message, stamp: Time): State
    requires msg.id in s.rows && msg.id in s.hist
  {
    var id := msg.id;
    s.(rows := s.rows[id := ClaimedRow(s.rows[id], stamp)],
       workers := s.workers[wid := Worker(pool, msg, Waiting, stamp, stamp, 0)],
       hist := s.hist[id := s.hist[id].(claims := s.hist[id].claims + 1)])
  }

  predicate Follows(cfg: Config, phase: Phase, action: Action) {
    match action
    case Admit => phase.Waiting?
    case Send(_) => phase.Delivering? && phase.sends < cfg.maxAttempts
    case Interrupt => phase.Delivering? && 0 < phase.sends < cfg.maxAttempts
    case SkipSending => phase == Delivering(0) && cfg.maxAttempts <= 0
  }

  function PhaseAfter(cfg: Config, phase: Phase, action: Action): Phase
    requires Follows(cfg, phase, action)
  {
    match action
    case Admit => Delivering(0)
    case Send(r) =>
      if r == Accept then Accepted
      else if r == Retry && phase.sends + 1 < cfg.maxAttempts then Delivering(phase.sends + 1)
      else Failed
    case Interrupt => Failed
    case SkipSending => Accepted
  }

  /** Time spent outside Sends and pauses until now. */
  function Spent(w: Worker, clock: Time): Time { w.spent + if w.phase.Delivering? then 0 else clock - w.since }

  function Moved(w: Worker, phase: Phase, clock: Time): Worker {
    w.(phase := phase, since := clock, spent := Spent(w, clock))
  }

  ghost predicate HasWorker(s: State, wid: nat) {
    wid in s.workers && s.workers[wid].msg.id in s.rows && s.workers[wid].msg.id in s.hist
  }

  ghost predicate CanDeliver(cfg: Config, s: State, wid: nat, action: Action) {
    HasWorker(s, wid) && Follows(cfg, s.workers[wid].phase, action)
  }

  ghost function DoDeliver(cfg: Config, s: State, wid: nat, action: Action): State
    requires CanDeliver(cfg, s, wid, action)
  {
    var me := s.workers[wid];
    var h := s.hist[me.msg.id];
    s.(workers := s.workers[wid := Moved(me, PhaseAfter(cfg, me.phase, action), s.clock)],
       hist := s.hist[me.msg.id :=
         h.(sends := h.sends + (if action.Send? then 1 else 0),
            accepts := h.accepts + (if action == Send(Accept) then 1 else 0))])
  }

  ghost function Envelope(w: Worker): Record { Record(DlqTopic(w.pool), w.msg) }

  /** A worker that gives its claim up: it crashes, is shut down or stops short of a final write. */
  ghost function DoLeave(s: State, wid: nat): State
    requires HasWorker(s, wid)
  {
    var id := s.workers[wid].msg.id;
    s.(workers := s.workers - {wid}, hist := s.hist[id := s.hist[id].(abandons := s.hist[id].abandons + 1)])
  }

  ghost predicate CanDeadLetter(s: State, wid: nat, ok: bool, written: set<Record>) {
    && HasWorker(s, wid) && s.workers[wid].phase.Failed?
    && written <= {Envelope(s.workers[wid])} && (ok ==> written == {Envelope(s.workers[wid])})
  }

  ghost function DoDeadLetter(s: State, wid: nat, ok: bool, written: set<Record>): State
    requires CanDeadLetter(s, wid, ok, written)
  {
    var t := s.(dlq := s.dlq + written);
    if ok then t.(workers := s.workers[wid := Moved(s.workers[wid], DeadLettered, s.clock)]) else DoLeave(t, wid)
  }

  /** The final writes name the row by id alone: whatever its status, it is overwritten. */
  ghost predicate CanFinish(s: State, wid: nat, phase: Phase, stamp: Time) {
    HasWorker(s, wid) && s.workers[wid].phase == phase && stamp <= s.clock && !Locked(s.txs, s.workers[wid].msg.id)
  }

  ghost function DoFinish(s: State, wid: nat, row: Row): State
    requires wid in s.workers
  {
    s.(rows := s.rows[s.workers[wid].msg.id := row], workers := s.workers - {wid})
  }

  ghost function Mine(s: State, wid: nat): Row
    requires HasWorker(s, wid)
  {
    s.rows[s.workers[wid].msg.id]
  }

  // ----- Pollers: select for update, publish, commit -----

  ghost predicate CanSelect(cfg: Config, s: State, tid: nat, reap: bool, now: Time, stamp: Time, ids: set<Id>) {
    && tid !in s.txs && now <= stamp <= s.clock
    && ids != {} && |ids| <= LimitOf(cfg, reap)
    && forall id | id in ids :: id in s.rows && !Locked(s.txs, id) && Eligible(KindOf(cfg, reap), s.rows[id], now)
  }

  ghost function DoSelect(cfg: Config, s: State, tid: nat, reap: bool, stamp: Time, ids: set<Id>): State
    requires ids <= s.rows.Keys
  {
    s.(txs := s.txs[tid := Tx(KindOf(cfg, reap), map id | id in ids :: s.rows[id], stamp, false)])
  }

  ghost predicate CanRepublish(s: State, tid: nat, ok: bool, written: set<Id>) {
    && tid in s.txs && !s.txs[tid].published
    && written <= s.txs[tid].picked.Keys && (ok ==> written == s.txs[tid].picked.Keys)
  }

  ghost function DoRepublish(s: State, tid: nat, ok: bool, written: set<Id>): State
    requires CanRepublish(s, tid, ok, written)
  {
    var tx := s.txs[tid];
    s.(published := s.published + RowRecords(tx.picked, written),
       txs := if ok then s.txs[tid := tx.(published := true)] else s.txs - {tid})
  }

  ghost predicate CanCommit(s: State, tid: nat) { tid in s.txs && s.txs[tid].published }

  ghost function DoCommit(s: State, tid: nat): State
    requires CanCommit(s, tid)
  {
    var tx := s.txs[tid];
    s.(rows := Requeue(s.rows, tx.picked.Keys, tx.stamp),
       txs := s.txs - {tid},
       hist := map id | id in s.hist ::
         if id in tx.picked && tx.picked[id].status == Processing
         then s.hist[id].(reaps := s.hist[id].reaps + 1) else s.hist[id])
  }

  // ----- Runs -----

  ghost predicate Enabled(cfg: Config, s: State, step: Step) {
    match step
    case Advance(to) => s.clock <= to
    case Cancel(id, stamp) => CanCancel(s, id, stamp)
    case Insert(rid, single, ds) => CanInsert(s, rid, single, ds)
    case Lookup(rid, d) => CanLookup(s, rid, d)
    case Publish(rid, ok, written) => CanPublish(s, rid, ok, written)
    case MarkQueued(rid, stamp) => CanMarkQueued(s, rid, stamp)
    case Abandon(rid) => rid in s.requests
    case Claim(wid, pool, priority, msg, stamp) => CanClaim(s, wid, pool, priority, msg, stamp)
    case Deliver(wid, action) => CanDeliver(cfg, s, wid, action)
    case DeadLetter(wid, ok, written) => CanDeadLetter(s, wid, ok, written)
    case MarkSent(wid, _, stamp) => CanFinish(s, wid, Accepted, stamp)
    case MarkDead(wid, _, stamp) => CanFinish(s, wid, DeadLettered, stamp)
    case Crash(wid) => HasWorker(s, wid)
    case Select(tid, reap, now, stamp, ids) => CanSelect(cfg, s, tid, reap, now, stamp, ids)
    case Republish(tid, ok, written) => CanRepublish(s, tid, ok, written)
    case Commit(tid) => CanCommit(s, tid)
    case Rollback(tid) => tid in s.txs
  }

  ghost function Apply(cfg: Config, s: State, step: Step): State
    requires Enabled(cfg, s, step)
  {
    match step
    case Advance(to) => s.(clock := to)
    case Cancel(id, stamp) => s.(rows := s.rows[id := CancelledRow(s.rows[id], stamp)])
    case Insert(rid, single, ds) => DoInsert(s, rid, single, ds)
    case Lookup(rid, d) => DoLookup(s, rid, d)
    case Publish(rid, ok, written) => DoPublish(s, rid, ok, written)
    case MarkQueued(rid, stamp) => DoMarkQueued(s, rid, stamp)
    case Abandon(rid) => s.(requests := s.requests - {rid})
    case Claim(wid, pool, _, msg, stamp) => DoClaim(s, wid, pool, msg, stamp)
    case Deliver(wid, action) => DoDeliver(cfg, s, wid, action)
    case DeadLetter(wid, ok, written) => DoDeadLetter(s, wid, ok, written)
    case MarkSent(wid, providerId, stamp) => DoFinish(s, wid, SentRow(Mine(s, wid), providerId, stamp))
    case MarkDead(wid, error, stamp) => DoFinish(s, wid, DeadRow(Mine(s, wid), error, stamp))
    case Crash(wid) => DoLeave(s, wid)
    case Select(tid, reap, now, stamp, ids) => DoSelect(cfg, s, tid, reap, stamp, ids)
    case Republish(tid, ok, written) => DoRepublish(s, tid, ok, written)
    case Commit(tid) => DoCommit(s, tid)
    case Rollback(tid) => s.(txs := s.txs - {tid})
  }

  ghost predicate Valid(cfg: Config, s: State, steps: seq<Step>)
    decreases |steps|
  {
    steps != [] ==> Enabled(cfg, s, steps[0]) && Valid(cfg, Apply(cfg, s, steps[0]), steps[1..])
  }

  ghost function Run(cfg: Config, s: State, steps: seq<Step>): State
    requires Valid(cfg, s, steps)
    decreases |steps|
  {
    if steps == [] then s else Run(cfg, Apply(cfg, s, steps[0]), steps[1..])
  }

  ghost predicate Reachable(cfg: Config, s: State) {
    exists steps :: Valid(cfg, INIT, steps) && Run(cfg, INIT, steps) == s
  }

  // ----- Runs in which every claim ends in time -----

  /** What is known of the time workers take: how long a claim lives, or how long its parts last.
      A part is a Send with the pause before it, and everything outside those together. */
  datatype Pace =
    | Lifetime(limit: Time)
    | Parts(timeout: Time, backoff: Time, overhead: Time)

  predicate OnTime(w: Worker, clock: Time, pace: Pace) {
    match pace
    case Lifetime(limit) => clock <= w.claimedAt + limit
    case Parts(timeout, backoff, overhead) =>
      && Spent(w, clock) <= overhead
      && (w.phase.Delivering? ==> clock - w.since <= timeout + backoff * w.phase.sends)
  }

  /** No worker that still holds a claim is behind its time. */
  ghost predicate Timely(s: State, pace: Pace) {
    forall w | w in s.workers :: OnTime(s.workers[w], s.clock, pace)
  }

  ghost predicate TimelyRun(cfg: Config, s: State, steps: seq<Step>, pace: Pace)
    decreases |steps|
  {
    && Timely(s, pace)
    && (steps != [] ==> Enabled(cfg, s, steps[0]) && TimelyRun(cfg, Apply(cfg, s, steps[0]), steps[1..], pace))
  }

  ghost predicate ReachableInTime(cfg: Config, s: State, pace: Pace) {
    exists steps :: Valid(cfg, INIT, steps) && TimelyRun(cfg, INIT, steps, pace) && Run(cfg, INIT, steps) == s
  }
}
