/** The notifications table as a value, and what each SQL statement of the storage layer does
    to it. The repository's methods and the protocol's steps are both proved against these. */
module Table {
  import opened Domain

  type Rows = map<Id, Row>

  ghost predicate WellKeyed(rows: Rows) {
    forall id | id in rows :: rows[id].draft.id == id
  }

  /** The partial unique index: rows without a key never conflict. */
  ghost predicate KeysUnique(rows: Rows) {
    forall a, b | a in rows && b in rows && rows[a].draft.key.Some? && rows[a].draft.key == rows[b].draft.key
      :: a == b
  }

  ghost predicate Keyed(rows: Rows) { WellKeyed(rows) && KeysUnique(rows) }

  predicate KeyTaken(rows: Rows, key: Option<string>) {
    key.Some? && exists id :: id in rows && rows[id].draft.key == key
  }

  /** The row an idempotency key leads to. */
  ghost function Holder(rows: Rows, key: Option<string>): (id: Id)
    requires KeyTaken(rows, key)
    ensures id in rows && rows[id].draft.key == key
  {
    var id :| id in rows && rows[id].draft.key == key;
    id
  }

  function FreshRow(d: Draft): Row { Row(d, InitialStatus(d), 0, None, None, d.createdAt, None) }

  /** INSERT ... ON CONFLICT (idempotency_key) DO NOTHING */
  ghost function Insert(rows: Rows, d: Draft): Rows {
    if KeyTaken(rows, d.key) then rows else rows[d.id := FreshRow(d)]
  }

  ghost function InsertAll(rows: Rows, ds: seq<Draft>): Rows {
    if ds == [] then rows else Insert(InsertAll(rows, ds[..|ds| - 1]), ds[|ds| - 1])
  }

  ghost predicate FreshIds(rows: Rows, ds: seq<Draft>) {
    && (forall i | 0 <= i < |ds| :: ds[i].id !in rows)
    && (forall i, j | 0 <= i < j < |ds| :: ds[i].id != ds[j].id)
  }

  /** The table only grew: no row it held is gone or changed. */
  ghost predicate Extends(rows: Rows, t: Rows) {
    forall id | id in rows :: id in t && t[id] == rows[id]
  }

  /** A draft offered to the table is either there as a fresh row or lost to a holder of its key. */
  ghost predicate Settled(t: Rows, d: Draft) {
    if d.id in t then t[d.id] == FreshRow(d) else KeyTaken(t, d.key)
  }

  lemma ExtensionKeepsHolders(rows: Rows, t: Rows, key: Option<string>)
    requires Extends(rows, t) && KeyTaken(rows, key)
    ensures KeyTaken(t, key)
  {
    assert t[Holder(rows, key)].draft.key == key;
  }

  lemma InsertEffect(rows: Rows, d: Draft)
    requires WellKeyed(rows) && KeysUnique(rows) && d.id !in rows
    ensures var t := Insert(rows, d); WellKeyed(t) && KeysUnique(t) && Extends(rows, t) && Settled(t, d)
  {
  }

  /** Every draft of the list is settled, and the table gains nothing else. */
  lemma {:induction false} InsertAllEffect(rows: Rows, ds: seq<Draft>)
    requires FreshIds(rows, ds) && WellKeyed(rows) && KeysUnique(rows)
    ensures var t := InsertAll(rows, ds); WellKeyed(t) && KeysUnique(t) && Extends(rows, t)
    ensures forall d | d in ds :: Settled(InsertAll(rows, ds), d)
    ensures forall id | id in InsertAll(rows, ds) && id !in rows :: InsertAll(rows, ds)[id].draft in ds
  {
    if ds != [] {
      var n := |ds| - 1;
      var last := ds[n];
      InsertAllEffect(rows, ds[..n]);
      var t := InsertAll(rows, ds[..n]);
      assert last.id !in t;
      InsertEffect(t, last);
      forall d | d in ds ensures Settled(Insert(t, last), d) {
        if d != last {
          assert d in ds[..n];
          if d.id !in t { ExtensionKeepsHolders(t, Insert(t, last), d.key); }
        }
      }
    }
  }

  /** UPDATE ... SET status = 'queued' WHERE id = ANY(ids) AND status = 'pending' */
  function MarkQueued(rows: Rows, ids: set<Id>, stamp: Time): Rows {
    map id | id in rows ::
      if id in ids && rows[id].status == Pending then rows[id].(status := Queued, updatedAt := stamp) else rows[id]
  }

  /** UPDATE ... SET status = 'queued' WHERE id = ANY(ids): the commit of a poller's transaction. */
  function Requeue(rows: Rows, ids: set<Id>, stamp: Time): Rows {
    map id | id in rows ::
      if id in ids then rows[id].(status := Queued, updatedAt := stamp) else rows[id]
  }

  function ClaimedRow(r: Row, stamp: Time): Row {
    r.(status := Processing, attempts := r.attempts + 1, updatedAt := stamp)
  }

  /** MarkSent has no status guard: it writes whatever the status is. */
  function SentRow(r: Row, providerId: string, stamp: Time): Row {
    r.(status := Sent, providerId := if providerId == "" then None else Some(providerId),
       sentAt := Some(stamp), lastError := None, updatedAt := stamp)
  }

  /** Nor has MarkDead. */
  function DeadRow(r: Row, error: string, stamp: Time): Row {
    r.(status := Dead, lastError := Some(error), updatedAt := stamp)
  }

  function CancelledRow(r: Row, stamp: Time): Row { r.(status := Cancelled, updatedAt := stamp) }

  // ----- SELECT ... ORDER BY ... LIMIT ... FOR UPDATE SKIP LOCKED -----

  /** The two pollers select alike and differ in what they look for. */
  datatype Kind = Dispatch | Reap(pendingAfter: Time, inflightAfter: Time)

  predicate Pickable(kind: Kind, st: Status) {
    if kind.Dispatch? then st == Scheduled else st == Pending || st == Queued || st == Processing
  }

  predicate Eligible(kind: Kind, r: Row, now: Time) {
    match kind
    case Dispatch => r.status == Scheduled && r.draft.scheduledAt.Some? && r.draft.scheduledAt.value <= now
    case Reap(pendingAfter, inflightAfter) =>
      || (r.status == Pending && r.updatedAt < now - pendingAfter)
      || ((r.status == Queued || r.status == Processing) && r.updatedAt < now - inflightAfter)
  }

  function SortKey(kind: Kind, r: Row): Time {
    if kind.Reap? then r.updatedAt else if r.draft.scheduledAt.Some? then r.draft.scheduledAt.value else 0
  }

  ghost function EligibleIds(kind: Kind, rows: Rows, locked: set<Id>, now: Time): set<Id> {
    set id | id in rows && id !in locked && Eligible(kind, rows[id], now)
  }

  function Ids(batch: seq<Row>): set<Id> { set r | r in batch :: r.draft.id }

  ghost predicate Sorted(kind: Kind, batch: seq<Row>) {
    forall i, j | 0 <= i < j < |batch| :: SortKey(kind, batch[i]) <= SortKey(kind, batch[j])
  }

  ghost predicate DistinctIds(batch: seq<Row>) {
    forall i, j | 0 <= i < j < |batch| :: batch[i].draft.id != batch[j].draft.id
  }

  /** A result the query may return: ties may come in any order, rows locked elsewhere are
      skipped, and a row is left out only when the limit is spent on rows no later than it. */
  ghost predicate IsBatch(kind: Kind, rows: Rows, locked: set<Id>, now: Time, limit: int, batch: seq<Row>) {
    && |batch| <= limit
    && DistinctIds(batch) && Sorted(kind, batch)
    && (forall r | r in batch :: r.draft.id in EligibleIds(kind, rows, locked, now) && rows[r.draft.id] == r)
    && (forall id | id in EligibleIds(kind, rows, locked, now) && id !in Ids(batch) ::
          |batch| == limit && forall r | r in batch :: SortKey(kind, r) <= SortKey(kind, rows[id]))
  }

  /** What the scheduler's query may return: due rows by their scheduled time, and, where the limit
      leaves some out, none that is due before a row it took. */
  lemma DispatchBatchIff(rows: Rows, locked: set<Id>, now: Time, limit: int, batch: seq<Row>)
    requires WellKeyed(rows)
    ensures IsBatch(Dispatch, rows, locked, now, limit, batch) <==>
      && |batch| <= limit
      && (forall r | r in batch ::
            && r.draft.id in rows && rows[r.draft.id] == r && r.draft.id !in locked
            && r.status == Scheduled && r.draft.scheduledAt.Some? && r.draft.scheduledAt.value <= now)
      && (forall i, j | 0 <= i < j < |batch| ::
            && batch[i].draft.id != batch[j].draft.id && batch[i].draft.scheduledAt.Some?
            && batch[j].draft.scheduledAt.Some?
            && batch[i].draft.scheduledAt.value <= batch[j].draft.scheduledAt.value)
      && (forall id | id in rows && id !in locked && rows[id] !in batch
                      && rows[id].status == Scheduled && rows[id].draft.scheduledAt.Some?
                      && rows[id].draft.scheduledAt.value <= now ::
            && |batch| == limit
            && forall r | r in batch ::
                 r.draft.scheduledAt.Some? && r.draft.scheduledAt.value <= rows[id].draft.scheduledAt.value)
  {
    TakenOrLeft(rows, batch);
    assert forall i | 0 <= i < |batch| :: batch[i] in batch;
  }

  /** What the reaper's query may return: rows that stood too long, the longest first. */
  lemma ReapBatchIff(rows: Rows, locked: set<Id>, now: Time, pendingAfter: Time, inflightAfter: Time, limit: int,
      batch: seq<Row>)
    requires WellKeyed(rows)
    ensures IsBatch(Reap(pendingAfter, inflightAfter), rows, locked, now, limit, batch) <==>
      && |batch| <= limit
      && (forall r | r in batch ::
            && r.draft.id in rows && rows[r.draft.id] == r && r.draft.id !in locked
            && r.status in {Pending, Queued, Processing}
            && r.updatedAt < now - if r.status == Pending then pendingAfter else inflightAfter)
      && (forall i, j | 0 <= i < j < |batch| ::
            batch[i].draft.id != batch[j].draft.id && batch[i].updatedAt <= batch[j].updatedAt)
      && (forall id | id in rows && id !in locked && rows[id] !in batch
                      && rows[id].status in {Pending, Queued, Processing}
                      && rows[id].updatedAt < now - if rows[id].status == Pending
                          then pendingAfter else inflightAfter ::
            |batch| == limit && forall r | r in batch :: r.updatedAt <= rows[id].updatedAt)
  {
    TakenOrLeft(rows, batch);
    assert forall i | 0 <= i < |batch| :: batch[i] in batch;
  }

  /** A row is in a batch of rows of this table exactly when its id is. */
  lemma TakenOrLeft(rows: Rows, batch: seq<Row>)
    requires WellKeyed(rows)
    ensures (forall r | r in batch :: r.draft.id in rows && rows[r.draft.id] == r) ==>
              forall id | id in rows :: rows[id] in batch <==> id in Ids(batch)
  {
  }

  /** Some eligible row comes first. */
  lemma {:induction false} EarliestExists(kind: Kind, rows: Rows, ids: set<Id>) returns (first: Id)
    requires ids != {} && ids <= rows.Keys
    ensures first in ids && forall id | id in ids :: SortKey(kind, rows[first]) <= SortKey(kind, rows[id])
  {
    first :| first in ids;
    if ids != {first} {
      assert ids - {first} != {};
      var other := EarliestExists(kind, rows, ids - {first});
      if SortKey(kind, rows[other]) < SortKey(kind, rows[first]) { first := other; }
    }
  }

  lemma IdsAppend(a: seq<Row>, b: seq<Row>)
    ensures Ids(a + b) == Ids(a) + Ids(b)
  {
    assert forall r :: r in a + b <==> r in a || r in b;
  }

  lemma {:induction false} IdsAreFew(batch: seq<Row>)
    ensures |Ids(batch)| <= |batch|
  {
    if batch != [] {
      var n := |batch| - 1;
      assert batch == batch[..n] + [batch[n]];
      IdsAppend(batch[..n], [batch[n]]);
      IdsAreFew(batch[..n]);
      assert Ids([batch[n]]) == {batch[n].draft.id};
    }
  }

  lemma BatchFits(kind: Kind, rows: Rows, locked: set<Id>, now: Time, limit: int, batch: seq<Row>)
    requires IsBatch(kind, rows, locked, now, limit, batch)
    ensures |Ids(batch)| <= limit && Ids(batch) <= EligibleIds(kind, rows, locked, now)
  {
    IdsAreFew(batch);
  }

  /** Any set of rows can be listed in order. */
  lemma {:induction false} OrderedListing(kind: Kind, rows: Rows, ids: set<Id>) returns (all: seq<Row>)
    requires ids <= rows.Keys && WellKeyed(rows)
    ensures Ids(all) == ids && DistinctIds(all) && Sorted(kind, all) && forall r | r in all :: rows[r.draft.id] == r
  {
    all := [];
    if ids != {} {
      var first := EarliestExists(kind, rows, ids);
      var rest := OrderedListing(kind, rows, ids - {first});
      assert forall r | r in rest :: r.draft.id in Ids(rest);
      FirstThenRest(kind, rows[first], rest);
      hide Sorted, DistinctIds, SortKey;
      all := [rows[first]] + rest;
      IdsAppend([rows[first]], rest);
      assert Ids([rows[first]]) == {first};
    }
  }

  lemma FirstThenRest(kind: Kind, first: Row, rest: seq<Row>)
    requires Sorted(kind, rest) && DistinctIds(rest)
    requires forall r | r in rest :: SortKey(kind, first) <= SortKey(kind, r) && r.draft.id != first.draft.id
    ensures Sorted(kind, [first] + rest) && DistinctIds([first] + rest)
  {
    assert forall i | 0 <= i < |rest| :: rest[i] in rest;
  }

  /** The query always has an answer, and a non-empty one when anything is eligible. */
  lemma BatchExists(kind: Kind, rows: Rows, locked: set<Id>, now: Time, limit: nat) returns (batch: seq<Row>)
    requires WellKeyed(rows)
    ensures IsBatch(kind, rows, locked, now, limit, batch)
    ensures limit > 0 && EligibleIds(kind, rows, locked, now) != {} ==> batch != []
  {
    var ids := EligibleIds(kind, rows, locked, now);
    var all := OrderedListing(kind, rows, ids);
    if ids != {} { assert all != []; }
    batch := if |all| <= limit then all else all[..limit];
    hide Eligible, Sorted, DistinctIds, EligibleIds;
    PrefixIsOrdered(kind, all, |batch|);
    PrefixIsBatch(kind, rows, locked, now, limit, all, batch);
  }

  lemma PrefixIsOrdered(kind: Kind, all: seq<Row>, n: nat)
    requires n <= |all| && Sorted(kind, all) && DistinctIds(all)
    ensures Sorted(kind, all[..n]) && DistinctIds(all[..n])
  {
  }

  lemma PrefixIsBatch(kind: Kind, rows: Rows, locked: set<Id>, now: Time, limit: nat, all: seq<Row>, batch: seq<Row>)
    requires Ids(all) == EligibleIds(kind, rows, locked, now) && Sorted(kind, all)
    requires forall r | r in all :: r.draft.id in rows && rows[r.draft.id] == r
    requires batch == (if |all| <= limit then all else all[..limit]) && Sorted(kind, batch) && DistinctIds(batch)
    ensures IsBatch(kind, rows, locked, now, limit, batch)
  {
    hide EligibleIds, DistinctIds, Eligible, SortKey;
    assert forall r | r in batch :: r in all && r.draft.id in Ids(all);
    forall id | id in Ids(all) && id !in Ids(batch)
      ensures |batch| == limit && forall r | r in batch :: SortKey(kind, r) <= SortKey(kind, rows[id])
    {
      var i :| 0 <= i < |all| && all[i].draft.id == id;
      assert all[i] in all;
      assert forall j | 0 <= j < |batch| :: batch[j].draft.id in Ids(batch);
    }
  }
}
