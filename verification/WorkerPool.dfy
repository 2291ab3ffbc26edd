/** One channel's delivery pool, run by one goroutine at a time: strict-priority dequeue, and
    process, which claims, delivers and decides whether the offset may be committed. */
module WorkerPool {
  import opened Domain
  import opened Table
  import opened Storage
  import Delivery

  /** A fetched message whose offset is not committed yet. */
  datatype Job = Job(msg: Message, priority: Priority, offset: nat)

  /** What the dead-letter topic gets: the message and how it failed. */
  datatype Letter = Letter(topic: string, original: Message, error: string, attempts: int, failedAt: Time)

  datatype ProviderRequest = ProviderRequest(to: string, channel: Channel, content: string)

  /** What the world does to one job: database and broker errors, shutdown, the provider, the
      times its statements read, and the texts of its errors. */
  datatype JobWorld = JobWorld(
    claimFails: bool, claimedAt: Time,
    waitFails: bool,
    delivery: Delivery.World,
    sentFails: bool, deadFails: bool, finishedAt: Time,
    dlqFails: bool, failedAt: Time,
    error: string)

  function RequestOf(m: Message): ProviderRequest { ProviderRequest(m.recipient, m.channel, m.content) }

  /** Strict priority: the head of the first buffer that is not empty, or nothing, and that only on
      shutdown with high and normal empty. */
  ghost predicate Serves(cancelled: bool, high: seq<Job>, normal: seq<Job>, low: seq<Job>,
    j: Option<Job>, high': seq<Job>, normal': seq<Job>, low': seq<Job>)
  {
    && (j.Some? ==> high + normal + low == [j.value] + (high' + normal' + low'))
    && (j.Some? && high != [] ==> high' == high[1..] && normal' == normal)
    && (j.Some? && high == [] != normal ==> high' == [] && normal' == normal[1..])
    && (j.Some? && high == normal == [] ==> high' == normal' == [])
    && (j.None? ==> cancelled && high == normal == high' == normal' == [] && low' == low)
  }

  class Pool {
    const channel: Channel
    const repo: Repository
    const maxAttempts: int

    var highCh: seq<Job>
    var normalCh: seq<Job>
    var lowCh: seq<Job>

    // What the pool has done to the outside: provider calls, dead letters, commit attempts.
    var calls: seq<ProviderRequest>
    var dlq: seq<Letter>
    var commits: seq<Job>

    constructor (channel: Channel, repo: Repository, maxAttempts: int)
      ensures this.channel == channel && this.repo == repo && this.maxAttempts == maxAttempts
      ensures Backlog() == [] && calls == [] && dlq == [] && commits == []
    {
      this.channel := channel;
      this.repo := repo;
      this.maxAttempts := maxAttempts;
      highCh, normalCh, lowCh := [], [], [];
      calls, dlq, commits := [], [], [];
    }

    /** Everything buffered, in the order strict priority serves it. */
    ghost function Backlog(): seq<Job>
      reads this
    {
      highCh + normalCh + lowCh
    }

    /** The buffer a fetched message of this priority goes to. */
    method Enqueue(j: Job)
      modifies this`highCh, this`normalCh, this`lowCh
      ensures highCh == old(highCh) + (if j.priority == High then [j] else [])
      ensures normalCh == old(normalCh) + (if j.priority == Normal then [j] else [])
      ensures lowCh == old(lowCh) + (if j.priority == Low then [j] else [])
    {
      match j.priority {
        case High => highCh := highCh + [j];
        case Low => lowCh := lowCh + [j];
        case Normal => normalCh := normalCh + [j];
      }
    }

    /** Three selects, with nobody else sending or receiving. The last one blocks until a job or
        the shutdown arrives, and when both are there either may win. */
    method Next(cancelled: bool) returns (j: Option<Job>)
      requires cancelled || Backlog() != []
      modifies this`highCh, this`normalCh, this`lowCh
      ensures Serves(cancelled, old(highCh), old(normalCh), old(lowCh), j, highCh, normalCh, lowCh)
    {
      if highCh != [] {
        j, highCh := Some(highCh[0]), highCh[1..];
        return;
      }
      // Without arrivals high is still empty here, and high and normal below.
      if normalCh != [] {
        j, normalCh := Some(normalCh[0]), normalCh[1..];
        return;
      }
      if
      case lowCh != [] =>
        j, lowCh := Some(lowCh[0]), lowCh[1..];
      case cancelled =>
        j := None;
    }

    /** With no arrivals, repeated Next returns the high jobs in order, then the normal ones, then the low. */
    method Drain() returns (jobs: seq<Job>)
      modifies this`highCh, this`normalCh, this`lowCh
      ensures jobs == old(highCh) + old(normalCh) + old(lowCh) && Backlog() == []
    {
      jobs := [];
      while highCh != [] || normalCh != [] || lowCh != []
        invariant jobs + Backlog() == old(Backlog())
        decreases |Backlog()|
      {
        var j := Next(false);
        jobs := jobs + [j.value];
      }
    }

    /** Claims the row, sends, and records the outcome. The offset is offered for commit exactly
        when the claim was lost, the delivery ended without an error, or the dead letter was
        written; on any other exit the job has left no acceptance and no dead letter behind. */
    method Process(j: Job, w: JobWorld) returns (claimed: bool, ghost outcome: Option<Delivery.Delivered>)
      modifies this`calls, this`dlq, this`commits, repo
      ensures claimed <==> ClaimSucceeds(old(repo.rows), j.msg.id, w)
      ensures outcome == OutcomeOf(old(repo.rows), j.msg.id, w, maxAttempts)
      // what was sent
      ensures calls == old(calls) +
        if outcome.Some? then seq(Delivery.SendsOf(w.delivery, maxAttempts), _ => RequestOf(j.msg)) else []
      // what was committed and dead-lettered
      ensures commits == old(commits) + if Committed(w, claimed, outcome) then [j] else []
      ensures dlq == old(dlq) +
        if outcome.Some? && outcome.value.Failure? && !w.dlqFails
        then [Letter(DlqTopic(channel), j.msg, w.error, maxAttempts, w.failedAt)] else []
      ensures commits == old(commits) ==> dlq == old(dlq) && !(outcome.Some? && outcome.value.Success?)
      // what became of the row
      ensures repo.rows == RowsAfter(old(repo.rows), j.msg.id, w, claimed, outcome)
      // what a commit stands for
      ensures commits != old(commits) && j.msg.id in old(repo.rows) ==>
        && j.msg.id in repo.rows
        && (repo.rows[j.msg.id].status in {Sent, Dead, Cancelled} || dlq != old(dlq)
            <==> EarnsCommit(old(repo.rows)[j.msg.id], w, maxAttempts))
      // the same, case by case
      ensures claimed <==>
        !w.claimFails && j.msg.id in old(repo.rows) && old(repo.rows)[j.msg.id].status in {Queued, Pending}
      ensures outcome.Some? <==> claimed && !w.waitFails
      ensures |old(calls)| <= |calls| && calls[..|old(calls)|] == old(calls)
      ensures forall i | |old(calls)| <= i < |calls| ::
        calls[i].to == j.msg.recipient && calls[i].channel == j.msg.channel && calls[i].content == j.msg.content
      ensures w.claimFails || (claimed && w.waitFails) ==> commits == old(commits)
      ensures !w.claimFails && !claimed ==> commits == old(commits) + [j]
      ensures outcome.Some? ==> commits == old(commits) + if outcome.value.Failure? && w.dlqFails then [] else [j]
      ensures !claimed ==> repo.rows == old(repo.rows) && calls == old(calls) && dlq == old(dlq)
      ensures claimed ==>
        && j.msg.id in repo.rows && repo.rows == old(repo.rows)[j.msg.id := repo.rows[j.msg.id]]
        && var r, t := old(repo.rows)[j.msg.id], repo.rows[j.msg.id];
           && t.draft == r.draft && t.attempts == r.attempts + 1
           && if outcome.Some? && !outcome.value.Failure? && !w.sentFails then
                && t.status == Sent && t.sentAt == Some(w.finishedAt) && t.lastError.None?
                && t.providerId == (if outcome.value.Success? && outcome.value.messageId != ""
                                    then Some(outcome.value.messageId) else None)
              else if outcome.Some? && outcome.value.Failure? && !w.dlqFails && !w.deadFails then
                t.status == Dead && t.lastError == Some(w.error)
              else t.status == Processing && t.updatedAt == w.claimedAt
    {
      outcome := None;
      if w.claimFails { return false, None; }
      claimed := repo.MarkProcessing(j.msg.id, w.claimedAt);
      if !claimed {
        commits := commits + [j];
        return;
      }
      if w.waitFails { return; }

      var result, sends, elapsed := Delivery.Deliver(w.delivery, maxAttempts);
      Delivery.MakesOnce(w.delivery, maxAttempts, sends, Delivery.SendsOf(w.delivery, maxAttempts));
      outcome := Some(result);
      calls := calls + seq(sends, _ => RequestOf(j.msg));
      if !result.Failure? {
        if !w.sentFails {
          repo.MarkSent(j.msg.id, if result.Success? then result.messageId else "", w.finishedAt);
        }
        commits := commits + [j];
        return;
      }
      if w.dlqFails { return; }
      dlq := dlq + [Letter(DlqTopic(channel), j.msg, w.error, maxAttempts, w.failedAt)];
      if !w.deadFails {
        repo.MarkDead(j.msg.id, w.error, w.finishedAt);
      }
      commits := commits + [j];
    }
  }

  /** When the offset is offered for commit. */
  ghost predicate Committed(w: JobWorld, claimed: bool, outcome: Option<Delivery.Delivered>) {
    (!w.claimFails && !claimed) || (outcome.Some? && (!outcome.value.Failure? || !w.dlqFails))
  }

  /** The claim succeeds. */
  predicate ClaimSucceeds(rows: Rows, id: Id, w: JobWorld) { !w.claimFails && id in rows && Claimable(rows[id].status) }

  /** What comes of the delivery, if it comes to one. */
  ghost function OutcomeOf(rows: Rows, id: Id, w: JobWorld, maxAttempts: int): Option<Delivery.Delivered> {
    if ClaimSucceeds(rows, id, w) && !w.waitFails
    then Some(Delivery.Verdict(w.delivery, maxAttempts, Delivery.SendsOf(w.delivery, maxAttempts))) else None
  }

  /** With a claimable row: its delivery fails, or the update that records it does not. Without: the
      row is final already. */
  ghost predicate EarnsCommit(r: Row, w: JobWorld, maxAttempts: int) {
    if Claimable(r.status)
    then !w.sentFails || Delivery.Verdict(w.delivery, maxAttempts, Delivery.SendsOf(w.delivery, maxAttempts)).Failure?
    else Terminal(r.status)
  }

  /** A committed offset stands for a final row or a dead letter if and only if the row, the provider
      and the database earn it. */
  lemma CommitAfterOutcomeIff(rows: Rows, id: Id, w: JobWorld, maxAttempts: int)
    requires id in rows && Committed(w, ClaimSucceeds(rows, id, w), OutcomeOf(rows, id, w, maxAttempts))
    ensures var outcome := OutcomeOf(rows, id, w, maxAttempts);
            RowsAfter(rows, id, w, ClaimSucceeds(rows, id, w), outcome)[id].status in {Sent, Dead, Cancelled}
            || (outcome.Some? && outcome.value.Failure? && !w.dlqFails)
            <==> if rows[id].status in {Queued, Pending}
                 then !w.sentFails || (outcome.Some? && outcome.value.Failure?)
                 else rows[id].status in {Sent, Dead, Cancelled}
  {
    hide Delivery.Verdict;
  }

  /** The provider accepts, the update fails: the offset is committed, the row stays in 'processing'. */
  lemma AcceptanceUnwritten(rows: Rows, id: Id, maxAttempts: int) returns (w: JobWorld)
    requires id in rows && rows[id].status == Queued && maxAttempts >= 1
    ensures var outcome := OutcomeOf(rows, id, w, maxAttempts);
            && outcome == Some(Delivery.Success("m")) && Committed(w, ClaimSucceeds(rows, id, w), outcome)
            && RowsAfter(rows, id, w, ClaimSucceeds(rows, id, w), outcome)[id].status == Processing
            && !EarnsCommit(rows[id], w, maxAttempts)
  {
    var accepts := Delivery.World(k => Delivery.Status(202, Some("m")), k => 0, k => false, k => 0);
    w := JobWorld(false, 0, false, accepts, true, false, 0, false, 0, "");
    assert Delivery.Makes(accepts, maxAttempts, 1)
        && Delivery.Verdict(accepts, maxAttempts, 1) == Delivery.Success("m");
    Delivery.MakesOnce(accepts, maxAttempts, 1, Delivery.SendsOf(accepts, maxAttempts));
  }

  /** The table after one job: untouched without a claim, otherwise claimed and, unless the last
      write failed, sent or dead by the outcome of the delivery. */
  ghost function RowsAfter(rows: Rows, id: Id, w: JobWorld, claimed: bool, outcome: Option<Delivery.Delivered>): Rows {
    if !claimed || id !in rows then rows
    else
      var mine := ClaimedRow(rows[id], w.claimedAt);
      if outcome.Some? && !outcome.value.Failure? && !w.sentFails then
        rows[id := SentRow(mine, if outcome.value.Success? then outcome.value.messageId else "", w.finishedAt)]
      else if outcome.Some? && outcome.value.Failure? && !w.dlqFails && !w.deadFails then
        rows[id := DeadRow(mine, w.error, w.finishedAt)]
      else rows[id := mine]
  }
}
