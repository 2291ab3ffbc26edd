/** What every step of the protocol keeps, whatever the interleaving. Each invariant names only
    the parts of the state it is about, so a step is proved against the parts it writes. */
module Invariants {
  import opened Domain
  import opened Table
  import opened Protocol

  type Hists = map<Id, History>
  type Workers = map<nat, Worker>
  type Requests = map<nat, Request>
  type Txs = map<nat, Tx>

  // ----- The invariants -----

  /** The table and the history agree; a pending row never has a schedule, a scheduled one always. */
  ghost predicate Tallied(rows: Rows, hist: Hists) {
    && hist.Keys == rows.Keys
    && forall id | id in rows ::
         && rows[id].attempts == hist[id].claims
         && (rows[id].status == Pending ==> rows[id].draft.scheduledAt.None?)
         && (rows[id].status == Scheduled ==> rows[id].draft.scheduledAt.Some?)
  }

  /** Everything a transaction selected is still exactly as it was. */
  ghost predicate Holds(rows: Rows, tx: Tx) {
    forall id | id in tx.picked :: id in rows && rows[id] == tx.picked[id] && Pickable(tx.kind, rows[id].status)
  }

  ghost predicate Locks(rows: Rows, txs: Txs) {
    && (forall t | t in txs :: Holds(rows, txs[t]))
    && (forall t, u | t in txs && u in txs && t != u :: txs[t].picked.Keys !! txs[u].picked.Keys)
  }

  /** A published message is its row's immutable columns on its row's topic, and was due. */
  ghost predicate Genuine(rows: Rows, clock: Time, r: Record) {
    r.msg.id in rows && r == RecordOf(rows[r.msg.id].draft) && DueBy(rows[r.msg.id].draft, clock)
  }

  ghost predicate GenuineWorker(rows: Rows, published: set<Record>, w: Worker) {
    && w.msg.id in rows
    && var d := rows[w.msg.id].draft; w.msg == MessageOf(d) && w.pool == d.channel && RecordOf(d) in published
  }

  ghost predicate GenuineRequest(rows: Rows, published: set<Record>, q: Request) {
    match q
    case Inserted(_, added, conflicts) =>
      && (forall d | d in added :: d.id in rows && rows[d.id].draft == d)
      && (forall d | d in conflicts :: KeyTaken(rows, d.key))
    case Published(ids) => forall id | id in ids :: id in rows && RecordOf(rows[id].draft) in published
  }

  /** The dispatcher looked at the schedule, and the reaper finds only rows that never had one
      or were published before. */
  ghost predicate GenuineTx(clock: Time, published: set<Record>, tx: Tx) {
    forall id | id in tx.picked ::
      DueBy(tx.picked[id].draft, clock) && (tx.published ==> RecordOf(tx.picked[id].draft) in published)
  }

  ghost predicate TrueReply(rows: Rows, p: Reply) {
    && p.id in rows && rows[p.id].draft.key == p.draft.key
    && (p.outcome == Created ==> rows[p.id].draft == p.draft)
    && (p.outcome != Created ==> p.draft.key.Some?)
    && (p.outcome == Replayed ==> rows[p.id].SamePayload(p.draft.recipient, p.draft.channel, p.draft.content))
    && (p.outcome == Mismatch ==> !rows[p.id].SamePayload(p.draft.recipient, p.draft.channel, p.draft.content))
  }

  ghost predicate Records(rows: Rows, clock: Time, published: set<Record>) {
    forall r | r in published :: Genuine(rows, clock, r)
  }

  ghost predicate Envelopes(rows: Rows, dlq: set<Record>) {
    forall e | e in dlq :: e.msg.id in rows && e == EnvelopeOf(rows[e.msg.id].draft)
  }

  ghost predicate Holders(rows: Rows, published: set<Record>, workers: Workers) {
    forall w | w in workers :: GenuineWorker(rows, published, workers[w])
  }

  ghost predicate Asked(rows: Rows, published: set<Record>, requests: Requests) {
    forall q | q in requests :: GenuineRequest(rows, published, requests[q])
  }

  ghost predicate Answered(rows: Rows, replies: set<Reply>) {
    forall p | p in replies :: TrueReply(rows, p)
  }

  ghost predicate Picks(clock: Time, published: set<Record>, txs: Txs) {
    forall t | t in txs :: GenuineTx(clock, published, txs[t])
  }

  /** A status past 'pending' and 'scheduled' means a message was published. */
  ghost predicate Announced(rows: Rows, published: set<Record>) {
    forall id | id in rows && Launched(rows[id].status) :: RecordOf(rows[id].draft) in published
  }

  predicate Unspent(w: Worker, id: Id) { w.msg.id == id && (w.phase.Waiting? || w.phase.Delivering?) }

  function OpenClaims(workers: Workers, id: Id): set<nat> {
    set w | w in workers && Unspent(workers[w], id)
  }

  /** Each acceptance spends a claim, and a second claim needs a reap in between. */
  ghost predicate Counts(r: Row, h: History, open: nat) {
    && h.accepts + open <= h.claims
    && h.claims <= h.reaps + (if Taken(r.status) then 1 else 0)
    && (h.sends > 0 ==> h.claims > 0)
  }

  ghost predicate Counted(rows: Rows, hist: Hists, workers: Workers) {
    && (forall id | id in rows && id in hist :: Counts(rows[id], hist[id], |OpenClaims(workers, id)|))
    && (forall w | w in workers :: workers[w].msg.id in hist && hist[workers[w].msg.id].claims > 0)
  }

  ghost predicate Accepts(cfg: Config, hist: Hists, id: Id) {
    cfg.maxAttempts >= 1 ==> id in hist && hist[id].accepts > 0
  }

  /** 'sent' is earned by an acceptance and 'dead' by an envelope. */
  ghost predicate EarnedRows(cfg: Config, hist: Hists, dlq: set<Record>, rows: Rows) {
    forall id | id in rows ::
      && (rows[id].status == Sent ==> Accepts(cfg, hist, id))
      && (rows[id].status == Dead ==> EnvelopeOf(rows[id].draft) in dlq)
  }

  ghost predicate EarnedPhases(cfg: Config, hist: Hists, dlq: set<Record>, workers: Workers) {
    forall w | w in workers ::
      && (workers[w].phase.Accepted? ==> Accepts(cfg, hist, workers[w].msg.id))
      && (workers[w].phase.DeadLettered? ==> Envelope(workers[w]) in dlq)
  }

  /** At most one API write per notification: only the request that inserted it holds it. */
  ghost predicate WrittenOnce(hist: Hists, requests: Requests) {
    && (forall id | id in hist :: hist[id].apiWrites <= 1)
    && (forall q, d | q in requests && requests[q].Inserted? && d in requests[q].added ::
          d.id in hist && hist[d.id].apiWrites == 0)
    && (forall q, u | q in requests && u in requests && q != u && requests[q].Inserted? && requests[u].Inserted?
          :: IdsOf(requests[q].added) !! IdsOf(requests[u].added))
  }

  ghost predicate Inv(cfg: Config, s: State) {
    && Keyed(s.rows) && Tallied(s.rows, s.hist)
    && Locks(s.rows, s.txs) && Picks(s.clock, s.published, s.txs)
    && Records(s.rows, s.clock, s.published) && Envelopes(s.rows, s.dlq) && Announced(s.rows, s.published)
    && Holders(s.rows, s.published, s.workers)
    && Asked(s.rows, s.published, s.requests) && Answered(s.rows, s.replies)
    && Counted(s.rows, s.hist, s.workers)
    && EarnedRows(cfg, s.hist, s.dlq, s.rows) && EarnedPhases(cfg, s.hist, s.dlq, s.workers)
    && WrittenOnce(s.hist, s.requests)
  }

  // ----- What depends on immutable columns alone survives every UPDATE -----

  /** No immutable column is rewritten and no row forgotten. */
  ghost predicate SameDrafts(rows: Rows, rows': Rows) {
    forall id | id in rows :: id in rows' && rows'[id].draft == rows[id].draft
  }

  lemma KeyStaysTaken(rows: Rows, rows': Rows, key: Option<string>)
    requires SameDrafts(rows, rows') && KeyTaken(rows, key)
    ensures KeyTaken(rows', key)
  {
    assert rows'[Holder(rows, key)].draft.key == key;
  }

  lemma RequestsStayGenuine(rows: Rows, rows': Rows, published: set<Record>, requests: Requests)
    requires SameDrafts(rows, rows') && Asked(rows, published, requests)
    ensures Asked(rows', published, requests)
  {
    forall q | q in requests ensures GenuineRequest(rows', published, requests[q]) {
      assert GenuineRequest(rows, published, requests[q]);
      if requests[q].Inserted? {
        forall d | d in requests[q].conflicts ensures KeyTaken(rows', d.key) { KeyStaysTaken(rows, rows', d.key); }
      }
    }
  }

  /** Every record of a notification elsewhere speaks of its immutable columns only. */
  lemma DraftsSuffice(s: State, rows': Rows)
    requires SameDrafts(s.rows, rows')
    ensures Records(s.rows, s.clock, s.published) ==> Records(rows', s.clock, s.published)
    ensures Envelopes(s.rows, s.dlq) ==> Envelopes(rows', s.dlq)
    ensures Holders(s.rows, s.published, s.workers) ==> Holders(rows', s.published, s.workers)
    ensures Asked(s.rows, s.published, s.requests) ==> Asked(rows', s.published, s.requests)
    ensures Answered(s.rows, s.replies) ==> Answered(rows', s.replies)
  {
    if Asked(s.rows, s.published, s.requests) { RequestsStayGenuine(s.rows, rows', s.published, s.requests); }
  }

  /** More messages and a later clock disturb nothing. */
  lemma PublishingDisturbsNothing(s: State, clock: Time, published: set<Record>)
    requires s.clock <= clock && s.published <= published
    ensures Picks(s.clock, s.published, s.txs) ==> Picks(clock, published, s.txs)
    ensures Announced(s.rows, s.published) ==> Announced(s.rows, published)
    ensures Holders(s.rows, s.published, s.workers) ==> Holders(s.rows, published, s.workers)
    ensures Asked(s.rows, s.published, s.requests) ==> Asked(s.rows, published, s.requests)
    ensures Records(s.rows, s.clock, s.published) ==> Records(s.rows, clock, s.published)
  {
  }
}
