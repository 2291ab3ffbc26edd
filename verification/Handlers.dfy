/** The API's create endpoints: what they write, what they publish and what they answer. */
module Handlers {
  import opened Domain
  import opened Table
  import opened Storage
  import V = Validation

  /** What the broker and the database do to one publish-and-queue: how much of the write reached
      the log, whether it was acknowledged, and whether the status update went through. */
  datatype PublishWorld = PublishWorld(acknowledged: bool, reached: nat, updateFails: bool, now: Time)

  datatype ApiResponse =
    | BadRequest
    | Unprocessable(index: nat, errs: seq<V.FieldError>)
    | ServerError
    | Conflict
    | ReplayedRow(row: Row)
    | CreatedRow(row: Row)
    | CreatedBatch(total: nat, created: nat, duplicates: nat, items: seq<CreateResult>)

  const MAX_BATCH := 1000

  function PendingRows(ns: seq<Row>): seq<Row> {
    if ns == [] then []
    else PendingRows(ns[..|ns| - 1]) + if ns[|ns| - 1].status == Pending then [ns[|ns| - 1]] else []
  }

  function RecordsOfRows(ns: seq<Row>): seq<Record> { seq(|ns|, i requires 0 <= i < |ns| => RecordOf(ns[i].draft)) }

  /** What reaches the log: all of it when the write is acknowledged, any part of it otherwise. */
  function Written(ns: seq<Row>, w: PublishWorld): seq<Record> {
    RecordsOfRows(if w.acknowledged || w.reached > |ns| then ns else ns[..w.reached])
  }

  function RowsOf(results: seq<CreateResult>): seq<Row> {
    if results == [] then []
    else
      var last := results[|results| - 1];
      RowsOf(results[..|results| - 1]) + if !last.duplicate && last.notification.Some?
          then [last.notification.value] else []
  }

  function CountDuplicates(results: seq<CreateResult>): nat {
    if results == [] then 0
    else CountDuplicates(results[..|results| - 1]) + if results[|results| - 1].duplicate then 1 else 0
  }

  /** The table after publish-and-queue: published rows that are still pending become queued. */
  function AfterPublish(rows: Rows, ns: seq<Row>, w: PublishWorld): Rows {
    if PendingRows(ns) == [] || !w.acknowledged || w.updateFails then rows
    else Table.MarkQueued(rows, Ids(PendingRows(ns)), w.now)
  }

  /** A new row as the caller sees it: queued once the publish and the update went through. The
      timestamp is not read back. */
  function ShownRow(r: Row, w: PublishWorld): Row {
    if r.status == Pending && w.acknowledged && !w.updateFails then r.(status := Queued) else r
  }

  /** An item of a batch as the caller sees it: a duplicate is shown as it was looked up. */
  function ShownItem(x: CreateResult, w: PublishWorld): CreateResult {
    if !x.duplicate && x.notification.Some? then x.(notification := Some(ShownRow(x.notification.value, w))) else x
  }

  lemma {:induction false} RowsOfPrefix(results: seq<CreateResult>, i: nat)
    requires i <= |results|
    ensures RowsOf(results[..i]) <= RowsOf(results)
  {
    if i < |results| {
      RowsOfPrefix(results[..|results| - 1], i);
      assert results[..|results| - 1][..i] == results[..i];
    } else {
      assert results[..i] == results;
    }
  }

  /** The records that reach the log are those of pending rows, and of all of them when the write is
      acknowledged. */
  lemma WrittenFrom(ns: seq<Row>, w: PublishWorld)
    ensures forall x | x in Written(PendingRows(ns), w) ::
              exists i :: 0 <= i < |ns| && ns[i].status == Pending && x == RecordOf(ns[i].draft)
    ensures w.acknowledged ==> forall i | 0 <= i < |ns| && ns[i].status == Pending ::
              RecordOf(ns[i].draft) in Written(PendingRows(ns), w)
  {
    var pending := PendingRows(ns);
    forall x | x in Written(pending, w)
      ensures exists i :: 0 <= i < |ns| && ns[i].status == Pending && x == RecordOf(ns[i].draft)
    {
      var k :| 0 <= k < |Written(pending, w)| && Written(pending, w)[k] == x;
      assert x == RecordOf(pending[k].draft) && pending[k] in pending;
      PendingHas(ns, pending[k]);
    }
    forall i | 0 <= i < |ns| && ns[i].status == Pending && w.acknowledged
      ensures RecordOf(ns[i].draft) in Written(pending, w)
    {
      PendingHas(ns, ns[i]);
      var k :| 0 <= k < |pending| && pending[k] == ns[i];
      assert Written(pending, w)[k] == RecordOf(ns[i].draft);
    }
  }

  /** Each tells of such a row, field by field, on the topic named after its channel and priority. */
  lemma WrittenAre(ns: seq<Row>, w: PublishWorld)
    ensures forall x | x in Written(PendingRows(ns), w) ::
              exists i :: 0 <= i < |ns| && ns[i].status == Pending
                && x.msg.id == ns[i].draft.id && x.msg.recipient == ns[i].draft.recipient
                && x.msg.channel == ns[i].draft.channel && x.msg.content == ns[i].draft.content
                && x.msg.priority == ns[i].draft.priority && x.msg.createdAt == ns[i].draft.createdAt
                && x.topic == (match x.msg.channel case Sms => "sms" case Email => "email" case Push => "push") + "."
                              + match x.msg.priority case High => "high" case Normal => "normal" case Low => "low"
  {
    WrittenFrom(ns, w);
    hide Written, PendingRows, RecordOf;
    forall x | x in Written(PendingRows(ns), w)
      ensures exists i ::
        && 0 <= i < |ns| && ns[i].status == Pending
        && x.msg.id == ns[i].draft.id && x.msg.recipient == ns[i].draft.recipient
        && x.msg.channel == ns[i].draft.channel && x.msg.content == ns[i].draft.content
        && x.msg.priority == ns[i].draft.priority && x.msg.createdAt == ns[i].draft.createdAt
        && x.topic == (match x.msg.channel case Sms => "sms" case Email => "email" case Push => "push") + "."
                      + match x.msg.priority case High => "high" case Normal => "normal" case Low => "low"
    {
      var i :| 0 <= i < |ns| && ns[i].status == Pending && x == RecordOf(ns[i].draft);
      WireFormat(ns[i].draft);
    }
  }

  lemma {:induction false} PendingHas(ns: seq<Row>, r: Row)
    ensures r in PendingRows(ns) <==> r in ns && r.status == Pending
  {
    if ns != [] {
      PendingHas(ns[..|ns| - 1], r);
      assert ns == ns[..|ns| - 1] + [ns[|ns| - 1]];
    }
  }

  /** The table after publish-and-queue, row by row. */
  lemma PublishedRows(rows: Rows, ns: seq<Row>, w: PublishWorld)
    ensures AfterPublish(rows, ns, w).Keys == rows.Keys
    ensures forall id | id in rows :: AfterPublish(rows, ns, w)[id] ==
              if w.acknowledged && !w.updateFails && rows[id].status == Pending
                 && exists i :: 0 <= i < |ns| && ns[i].status == Pending && ns[i].draft.id == id
              then rows[id].(status := Queued, updatedAt := w.now) else rows[id]
  {
    forall id | id in rows { PublishedIs(ns, id); }
  }

  /** Which ids publish-and-queue names. */
  lemma PublishedIs(ns: seq<Row>, id: Id)
    ensures id in Ids(PendingRows(ns)) <==>
              exists i :: 0 <= i < |ns| && ns[i].status == Pending && ns[i].draft.id == id
    ensures id in Ids(PendingRows(ns)) ==> PendingRows(ns) != []
  {
    if i :| 0 <= i < |ns| && ns[i].status == Pending && ns[i].draft.id == id { PendingHas(ns, ns[i]); }
    if id in Ids(PendingRows(ns)) {
      var r :| r in PendingRows(ns) && r.draft.id == id;
      PendingHas(ns, r);
      var i :| 0 <= i < |ns| && ns[i] == r;
    }
  }

  // ----- What a batch answers, stores and writes -----

  /** An item is a duplicate when a row before the batch or an earlier item has its key, and shows
      that row or the row of the first such item as inserted. A new item shows its own row. */
  lemma ItemIsShown(rows: Rows, ds: seq<Draft>, i: nat, w: PublishWorld)
    requires i < |ds| && Keyed(rows) && FreshIds(rows, ds)
    ensures var item := ShownItem(FoldCreate(rows, ds).1[i], w);
            && item.duplicate == FoldCreate(rows, ds).1[i].duplicate
            && item.notification.Some? && item.notification.value.draft == Origin(rows, ds, i)
            && (item.duplicate <==>
                  ds[i].key.Some? && ((exists id :: id in rows && rows[id].draft.key == ds[i].key)
                                      || exists k :: 0 <= k < i && ds[k].key == ds[i].key))
            && (!item.duplicate ==>
                  item.notification.value ==
                    Row(ds[i],
                        if ds[i].scheduledAt.Some? then Scheduled
                        else if w.acknowledged && !w.updateFails then Queued else Pending,
                        0, None, None, ds[i].createdAt, None))
            && (item.duplicate ==>
                  && (forall id | id in rows && rows[id].draft.key == ds[i].key ::
                        item.notification.value == rows[id])
                  && (forall k | 0 <= k < i && ds[k].key == ds[i].key
                                 && (forall id | id in rows :: rows[id].draft.key != ds[i].key)
                                 && (forall m | 0 <= m < k :: ds[m].key != ds[i].key) ::
                        item.notification.value ==
                          Row(ds[k], if ds[k].scheduledAt.Some? then Scheduled else Pending, 0, None, None,
                              ds[k].createdAt, None)))
  {
    ItemIsSettled(rows, ds, i);
    ItemIsOrigin(rows, ds, i);
    hide FoldCreate, FreshIds, Keyed, Origin;
  }

  lemma {:induction false} RowsOfHas(results: seq<CreateResult>, r: Row)
    ensures r in RowsOf(results) <==>
              exists i :: 0 <= i < |results| && !results[i].duplicate && results[i].notification == Some(r)
  {
    if results != [] {
      var n := |results| - 1;
      RowsOfHas(results[..n], r);
      if r in RowsOf(results[..n]) {
        var i :| 0 <= i < n && !results[..n][i].duplicate && results[..n][i].notification == Some(r);
        assert results[i] == results[..n][i];
      }
      if i :| 0 <= i < |results| && !results[i].duplicate && results[i].notification == Some(r) {
        assert i < n ==> results[..n][i] == results[i];
      }
    }
  }

  /** The new rows of a batch are those of its items that are no duplicates. */
  lemma NewRowsAre(rows: Rows, ds: seq<Draft>, r: Row)
    requires Keyed(rows) && FreshIds(rows, ds)
    ensures var results := FoldCreate(rows, ds).1;
            r in RowsOf(results) <==> exists i :: 0 <= i < |ds| && !results[i].duplicate && r == FreshRow(ds[i])
  {
    var results := FoldCreate(rows, ds).1;
    RowsOfHas(results, r);
    forall i | 0 <= i < |ds| && !results[i].duplicate ensures results[i].notification == Some(FreshRow(ds[i])) {
      FoldSorts(rows, ds, i);
    }
  }

  /** The table after a batch: what was there, untouched, and the new rows of its items. */
  lemma BatchIsStored(rows: Rows, ds: seq<Draft>, w: PublishWorld)
    requires Keyed(rows) && FreshIds(rows, ds)
    ensures var (inserted, results) := FoldCreate(rows, ds);
            var t := AfterPublish(inserted, RowsOf(results), w);
            && (forall id | id in rows :: id in t && t[id] == rows[id])
            && (forall id | id in t && id !in rows ::
                  exists i :: 0 <= i < |ds| && ds[i].id == id && !results[i].duplicate)
  {
    var (inserted, results) := FoldCreate(rows, ds);
    var ns := RowsOf(results);
    TableIsSettled(rows, ds);
    PublishedRows(inserted, ns, w);
    forall k | 0 <= k < |ns|
      ensures ns[k].draft.id !in rows
    {
      NewRowsAre(rows, ds, ns[k]);
    }
    hide FoldCreate, RowsOf, AfterPublish, Keyed, FreshIds, FreshRow;
  }

  /** A new item's row is queued there if it was due and all went well. */
  lemma ItemIsStored(rows: Rows, ds: seq<Draft>, i: nat, w: PublishWorld)
    requires i < |ds| && Keyed(rows) && FreshIds(rows, ds) && !FoldCreate(rows, ds).1[i].duplicate
    ensures var t := AfterPublish(FoldCreate(rows, ds).0, RowsOf(FoldCreate(rows, ds).1), w);
            && ds[i].id in t && t[ds[i].id].draft == ds[i] && t[ds[i].id].attempts == 0
            && t[ds[i].id].status == (if ds[i].scheduledAt.Some? then Scheduled
                                      else if w.acknowledged && !w.updateFails then Queued else Pending)
  {
    var (inserted, results) := FoldCreate(rows, ds);
    var ns := RowsOf(results);
    PublishedRows(inserted, ns, w);
    FoldSorts(rows, ds, i);
    OwnRow(rows, ds, i);
    NewRowsAre(rows, ds, FreshRow(ds[i]));
    hide FoldCreate, RowsOf, AfterPublish, Keyed, FreshIds;
    var k :| 0 <= k < |ns| && ns[k] == FreshRow(ds[i]);
  }

  /** The records a batch adds are those of its new items that are due, and of all of them when the
      write is acknowledged. */
  lemma BatchIsWritten(rows: Rows, ds: seq<Draft>, w: PublishWorld)
    requires Keyed(rows) && FreshIds(rows, ds)
    ensures var results := FoldCreate(rows, ds).1;
            var records := Written(PendingRows(RowsOf(results)), w);
            && (forall x | x in records ::
                  exists i :: 0 <= i < |ds| && !results[i].duplicate && ds[i].scheduledAt.None? && x == RecordOf(ds[i]))
            && (w.acknowledged ==> forall i | 0 <= i < |ds| && !results[i].duplicate && ds[i].scheduledAt.None? ::
                  RecordOf(ds[i]) in records)
  {
    var results := FoldCreate(rows, ds).1;
    var ns := RowsOf(results);
    WrittenFrom(ns, w);
    hide FoldCreate, RowsOf, Written, PendingRows, Keyed, FreshIds, RecordOf;
    forall x | x in Written(PendingRows(ns), w)
      ensures exists i :: 0 <= i < |ds| && !results[i].duplicate && ds[i].scheduledAt.None? && x == RecordOf(ds[i])
    {
      var k :| 0 <= k < |ns| && ns[k].status == Pending && x == RecordOf(ns[k].draft);
      NewRowsAre(rows, ds, ns[k]);
    }
    forall i | 0 <= i < |ds| && !results[i].duplicate && ds[i].scheduledAt.None? && w.acknowledged
      ensures RecordOf(ds[i]) in Written(PendingRows(ns), w)
    {
      NewRowsAre(rows, ds, FreshRow(ds[i]));
      var k :| 0 <= k < |ns| && ns[k] == FreshRow(ds[i]);
    }
  }

  /** The record of a request: its own text, on the topic its own text names. */
  lemma RecordIsAsked(d: Draft, p: V.Params, id: Id, now: Time)
    requires V.Carries(d, p, id, now)
    ensures RecordOf(d).msg.id == id && RecordOf(d).msg.recipient == p.recipient
    ensures RecordOf(d).msg.content == p.content && RecordOf(d).msg.createdAt == now
    ensures RecordOf(d).topic == p.channel + "." + if p.priority == "" then "normal" else p.priority
  {
    WireFormat(d);
  }

  lemma {:induction false} DuplicatesCounted(results: seq<CreateResult>)
    ensures CountDuplicates(results) == |set i | 0 <= i < |results| && results[i].duplicate|
  {
    if results != [] {
      var n := |results| - 1;
      DuplicatesCounted(results[..n]);
      var before := set i | 0 <= i < n && results[..n][i].duplicate;
      assert (set i | 0 <= i < |results| && results[i].duplicate) == before + if results[n].duplicate then {n} else {};
    }
  }

  lemma OnePending(row: Row)
    ensures PendingRows([row]) == if row.status == Pending then [row] else []
  {
    assert [row][..0] == [] && PendingRows([row]) == PendingRows([]) + if row.status == Pending then [row] else [];
  }

  /** What publish-and-queue writes for a single new notification. */
  lemma OneIsWritten(d: Draft, w: PublishWorld)
    ensures var records := Written([FreshRow(d)], w);
            && |records| <= 1 && (w.acknowledged ==> |records| == 1)
            && (records != [] ==>
                  && records[0].msg.id == d.id && records[0].msg.recipient == d.recipient
                  && records[0].msg.content == d.content && records[0].msg.createdAt == d.createdAt
                  && records[0].topic == (match d.channel case Sms => "sms" case Email => "email" case Push => "push")
                       + "." + match d.priority case High => "high" case Normal => "normal" case Low => "low")
  {
    WireFormat(d);
    assert Written([FreshRow(d)], w) != [] ==> Written([FreshRow(d)], w)[0] == RecordOf(d);
    hide RecordOf;
  }

  /** And what it leaves in the table and shows. */
  lemma OneIsQueued(rows: Rows, d: Draft, w: PublishWorld)
    requires d.id !in rows
    ensures var row := FreshRow(d);
            var t, shown := AfterPublish(rows[d.id := row], [row], w), ShownRow(row, w);
            && PendingRows([row]) == (if d.scheduledAt.Some? then [] else [row])
            && d.id in t && t == rows[d.id := t[d.id]] && shown == t[d.id].(updatedAt := d.createdAt)
            && shown.draft == d && shown.attempts == 0
            && shown.status == (if d.scheduledAt.Some? then Scheduled
                                else if w.acknowledged && !w.updateFails then Queued else Pending)
  {
    var row := FreshRow(d);
    OnePending(row);
    assert Ids([row]) == {d.id};
    hide PendingRows, Ids;
    assert forall id | id in rows :: AfterPublish(rows[d.id := row], [row], w)[id] == rows[id];
  }

  /** Where the next new row of a batch is. */
  lemma NextRow(results: seq<CreateResult>, i: nat)
    requires i < |results| && results[i].notification.Some?
    ensures var k := |RowsOf(results[..i])|;
            if results[i].duplicate then |RowsOf(results[..i + 1])| == k
            else |RowsOf(results[..i + 1])| == k + 1 && k < |RowsOf(results)|
                 && RowsOf(results)[k] == results[i].notification.value
  {
    assert results[..i + 1][..i] == results[..i];
    RowsOfPrefix(results, i + 1);
  }

  class Handler {
    const repo: Repository
    var log: seq<Record>

    constructor (repo: Repository)
      ensures this.repo == repo && log == []
    {
      this.repo := repo;
      log := [];
    }

    /** Publishes what was inserted as pending and then queues it. A failed publish is not an
        error for the caller: the rows stay pending, whatever part of the write got through. */
    method PublishAndQueue(ns: seq<Row>, w: PublishWorld) returns (shown: seq<Row>)
      modifies this`log, repo
      ensures log == old(log) + if PendingRows(ns) == [] then [] else Written(PendingRows(ns), w)
      ensures repo.rows == AfterPublish(old(repo.rows), ns, w)
      ensures |shown| == |ns|
      ensures forall i | 0 <= i < |ns| :: shown[i] == ShownRow(ns[i], w)
      // each record tells of a pending row
      ensures |old(log)| <= |log| && forall x | x in log[|old(log)|..] ::
        exists i :: 0 <= i < |ns| && ns[i].status == Pending
          && x.msg.id == ns[i].draft.id && x.msg.recipient == ns[i].draft.recipient
          && x.msg.channel == ns[i].draft.channel && x.msg.content == ns[i].draft.content
          && x.msg.priority == ns[i].draft.priority && x.msg.createdAt == ns[i].draft.createdAt
          && x.topic == (match x.msg.channel case Sms => "sms" case Email => "email" case Push => "push") + "."
                        + match x.msg.priority case High => "high" case Normal => "normal" case Low => "low"
    {
      shown := ns;
      var pending: seq<Row> := [];
      for i := 0 to |ns|
        invariant pending == PendingRows(ns[..i])
      {
        assert ns[..i + 1][..i] == ns[..i];
        if ns[i].status == Pending { pending := pending + [ns[i]]; }
      }
      assert ns[..|ns|] == ns;
      PendingAreAmong(ns);
      WrittenAre(ns, w);
      if |pending| == 0 { return; }
      hide Written, PendingRows, RecordsOfRows, PendingRows;
      log := log + Written(pending, w);
      assert log[|old(log)|..] == Written(pending, w);
      if !w.acknowledged || w.updateFails { return; }
      var ids := seq(|pending|, i requires 0 <= i < |pending| => pending[i].draft.id);
      assert (set id | id in ids) == Ids(pending) by {
        assert forall r | r in pending :: exists i :: 0 <= i < |pending| && pending[i] == r && ids[i] == r.draft.id;
      }
      repo.MarkQueued(ids, w.now);
      shown := seq(|ns|, i requires 0 <= i < |ns| => if ns[i].status == Pending
          then ns[i].(status := Queued) else ns[i]);
    }

    /** One create: 422 when a rule is broken, 201 with the new row, 200 with the stored row when
        the key was used with this payload, 409 when it was used with another, 500 when the
        database failed. Only a new row is published. */
    method CreateNotification(p: V.Params, id: Id, now: Time, dbFails: bool, w: PublishWorld)
        returns (resp: ApiResponse)
      requires Keyed(repo.rows) && id !in repo.rows
      modifies this`log, repo
      ensures resp.Unprocessable? <==> V.Invalid(p, now)
      ensures resp.Unprocessable? ==> V.Reports(resp.errs, p, now, V.RULES)
      ensures resp.ServerError? <==> !V.Invalid(p, now) && dbFails
      ensures !resp.CreatedRow? ==> repo.rows == old(repo.rows) && log == old(log)
      ensures resp.Conflict? || resp.ReplayedRow? ==> KeyTaken(old(repo.rows), p.key)
      ensures resp.ReplayedRow? ==>
        && resp.row == old(repo.rows)[Holder(old(repo.rows), p.key)]
        && resp.row.draft.recipient == p.recipient && resp.row.draft.content == p.content
        && Some(resp.row.draft.channel) == V.ParseChannel(p.channel)
      ensures resp.Conflict? ==>
        var d := old(repo.rows)[Holder(old(repo.rows), p.key)].draft;
        d.recipient != p.recipient || d.content != p.content || Some(d.channel) != V.ParseChannel(p.channel)
      ensures resp.CreatedRow? ==>
        && !KeyTaken(old(repo.rows), p.key) && resp.row.draft.id == id && resp.row.draft.key == p.key
        && repo.rows == AfterPublish(old(repo.rows)[id := FreshRow(resp.row.draft)], [FreshRow(resp.row.draft)], w)
        && log == old(log) + (if p.scheduledAt.Some? then [] else Written([FreshRow(resp.row.draft)], w))
        && resp.row.status == (if p.scheduledAt.Some? then Scheduled
                               else if w.acknowledged && !w.updateFails then Queued else Pending)
      ensures resp.Unprocessable? || resp.ServerError? || resp.Conflict? || resp.ReplayedRow? || resp.CreatedRow?
      // a stored row is shown exactly to a request with its payload
      ensures resp.ReplayedRow? || resp.Conflict? ==>
        p.key.Some? && exists h :: h in old(repo.rows) && old(repo.rows)[h].draft.key == p.key
      ensures forall h | h in old(repo.rows) && p.key.Some? && old(repo.rows)[h].draft.key == p.key ::
        && !resp.CreatedRow? && (resp.ReplayedRow? ==> resp.row == old(repo.rows)[h])
        && (resp.ReplayedRow? || resp.Conflict? ==>
              (resp.ReplayedRow? <==>
                 var d := old(repo.rows)[h].draft;
                 && d.recipient == p.recipient && d.content == p.content
                 && p.channel == match d.channel case Sms => "sms" case Email => "email" case Push => "push"))
      // a new row has the request's fields, and is stored
      ensures resp.CreatedRow? ==>
        && resp.row.draft.recipient == p.recipient && resp.row.draft.content == p.content
        && p.channel == (match resp.row.draft.channel case Sms => "sms" case Email => "email" case Push => "push")
        && (resp.row.draft.priority == High <==> p.priority == "high")
        && (resp.row.draft.priority == Low <==> p.priority == "low")
        && resp.row.draft.scheduledAt == p.scheduledAt && resp.row.draft.createdAt == now && resp.row.attempts == 0
        && id in repo.rows && repo.rows == old(repo.rows)[id := repo.rows[id]]
        && resp.row == repo.rows[id].(updatedAt := now)
      // and its message, if it is due and got through, goes where the request said
      ensures |old(log)| <= |log| <= |old(log)| + 1 && log[..|old(log)|] == old(log)
      ensures resp.CreatedRow? ==> (p.scheduledAt.Some? ==> log == old(log))
      ensures resp.CreatedRow? ==> (p.scheduledAt.None? && w.acknowledged ==> |log| == |old(log)| + 1)
      ensures log != old(log) ==>
        var x := log[|old(log)|];
        && x.topic == p.channel + "." + (if p.priority == "" then "normal" else p.priority)
        && x.msg.id == id && x.msg.recipient == p.recipient && x.msg.content == p.content && x.msg.createdAt == now
    {
      hide V.Carries, V.Reports, V.Invalid, V.DueOrScheduled, RecordOf;
      var draft, errs := V.NewNotification(p, id, now);
      if draft.None? {
        return Unprocessable(0, errs);
      }
      var d := draft.value;
      var res := repo.Create(d, dbFails);
      if res.None? { return ServerError; }
      var row := res.value.notification.value;
      if res.value.duplicate {
        if !row.SamePayload(p.recipient, d.channel, p.content) { return Conflict; }
        return ReplayedRow(row);
      }
      OneIsWritten(d, w);
      OneIsQueued(old(repo.rows), d, w);
      hide *;
      var shown := PublishAndQueue([row], w);
      resp := CreatedRow(shown[0]);
    }

    /** One batch: nothing is written unless every item passes; then the table and the items are
        those of creating one after the other, and exactly the new pending rows are published. */
    method CreateBatch(ps: seq<V.Params>, ids: seq<Id>, now: Time, fault: Fault, w: PublishWorld)
      returns (resp: ApiResponse, ghost ds: seq<Draft>)
      requires Keyed(repo.rows) && |ids| == |ps|
      requires forall i | 0 <= i < |ids| :: ids[i] !in repo.rows
      requires forall i, j | 0 <= i < j < |ids| :: ids[i] != ids[j]
      modifies this`log, repo
      ensures resp.BadRequest? <==> |ps| == 0 || |ps| > 1000
      ensures (exists i :: 0 <= i < |ps| && V.Invalid(ps[i], now)) && 0 < |ps| <= 1000 ==> resp.Unprocessable?
      ensures resp.Unprocessable? ==>
        && resp.index < |ps| && V.Invalid(ps[resp.index], now) && V.Reports(resp.errs, ps[resp.index], now, V.RULES)
        && forall i | 0 <= i < resp.index :: !V.Invalid(ps[i], now)
      ensures resp.BadRequest? || resp.Unprocessable? ==> repo.rows == old(repo.rows) && log == old(log)
      ensures resp.ServerError? ==> BatchFails(fault, FoldCreate(old(repo.rows), ds).1)
      ensures resp.CreatedBatch? ==> !BatchFails(fault, FoldCreate(old(repo.rows), ds).1)
      ensures resp.ServerError? ==> log == old(log) && |ds| == |ps|
      ensures resp.ServerError? ==> forall i | 0 <= i < |ps| :: V.Carries(ds[i], ps[i], ids[i], now)
      ensures resp.ServerError? ==>
        repo.rows == if fault.LookupFails? then FoldCreate(old(repo.rows), ds).0 else old(repo.rows)
      ensures resp.CreatedBatch? ==>
        && |ds| == |ps|
        && (forall i | 0 <= i < |ps| :: !V.Invalid(ps[i], now) && V.Carries(ds[i], ps[i], ids[i], now))
        && var (rows, results) := FoldCreate(old(repo.rows), ds);
           && |resp.items| == |ps| && (forall i | 0 <= i < |ps| :: resp.items[i] == ShownItem(results[i], w))
           && resp.total == |ps| && resp.duplicates == CountDuplicates(results)
           && resp.created + resp.duplicates == resp.total
           && repo.rows == AfterPublish(rows, RowsOf(results), w)
           && log == old(log) +
                if PendingRows(RowsOf(results)) == [] then [] else Written(PendingRows(RowsOf(results)), w)
      ensures resp.BadRequest? || resp.Unprocessable? || resp.ServerError? || resp.CreatedBatch?
      // each draft is its request
      ensures resp.CreatedBatch? ==> |ds| == |ps| && forall i | 0 <= i < |ds| ::
        && ds[i].id == ids[i] && ds[i].recipient == ps[i].recipient && ds[i].content == ps[i].content
        && ds[i].key == ps[i].key && ds[i].scheduledAt == ps[i].scheduledAt && ds[i].createdAt == now
      // an item is a duplicate when a stored row or an earlier item has its key
      ensures resp.CreatedBatch? ==> |resp.items| == |ds| && forall i | 0 <= i < |ds| ::
        resp.items[i].notification.Some? && resp.items[i].notification.value.draft == Origin(old(repo.rows), ds, i)
      ensures resp.CreatedBatch? ==> forall i | 0 <= i < |ds| ::
        (resp.items[i].duplicate <==>
           ds[i].key.Some? && (KeyTaken(old(repo.rows), ds[i].key) || exists k :: 0 <= k < i && ds[k].key == ds[i].key))
      // a duplicate of a stored row shows that row
      ensures resp.CreatedBatch? ==> forall i | 0 <= i < |ds| && resp.items[i].duplicate ::
        forall id | id in old(repo.rows) && old(repo.rows)[id].draft.key == ds[i].key ::
          resp.items[i].notification == Some(old(repo.rows)[id])
      // a new item shows its own row
      ensures resp.CreatedBatch? ==> forall i | 0 <= i < |ds| && !resp.items[i].duplicate ::
        resp.items[i].notification.value ==
          Row(ds[i], if ds[i].scheduledAt.Some? then Scheduled
                     else if w.acknowledged && !w.updateFails then Queued else Pending,
              0, None, None, ds[i].createdAt, None)
    {
      hide FoldCreate, RowsOf, PendingRows, CountDuplicates, AfterPublish, Written, ShownRow, ShownItem, V.Invalid;
      ds := [];
      if |ps| == 0 { return BadRequest, []; }
      if |ps| > MAX_BATCH { return BadRequest, []; }
      var ns: seq<Draft> := [];
      for i := 0 to |ps|
        invariant |ns| == i && repo.rows == old(repo.rows) && log == old(log)
        invariant forall k | 0 <= k < i :: !V.Invalid(ps[k], now) && V.Carries(ns[k], ps[k], ids[k], now)
      {
        var draft, errs := V.NewNotification(ps[i], ids[i], now);
        if draft.None? {
          return Unprocessable(i, errs), [];
        }
        ns := ns + [draft.value];
      }
      ds := ns;
      assert FreshIds(repo.rows, ns) by {
        assert forall k | 0 <= k < |ns| :: V.Carries(ns[k], ps[k], ids[k], now);
      }
      forall i | 0 <= i < |ns| { V.DraftIs(ns[i], ps[i], ids[i], now); }
      ghost var before := repo.rows;
      forall i | 0 <= i < |ns| { ItemIsShown(before, ns, i, w); }
      forall i | 0 <= i < |ns| { DuplicateIff(before, ns, i); }
      hide *;
      var ok, results := repo.CreateBatch(ns, fault);
      if !ok { return ServerError, ds; }
      var created, duplicates, added := Account(results);
      var shown := PublishAndQueue(added, w);
      var items := Items(results, shown, w);
      resp := CreatedBatch(|results|, created, duplicates, items);
    }

    /** The rows that were published are those the items show. */
    method Items(results: seq<CreateResult>, shown: seq<Row>, ghost w: PublishWorld) returns (items: seq<CreateResult>)
      requires forall r | r in results :: r.notification.Some?
      requires |shown| == |RowsOf(results)| && forall k | 0 <= k < |shown| ::
          shown[k] == ShownRow(RowsOf(results)[k], w)
      ensures |items| == |results| && forall i | 0 <= i < |results| :: items[i] == ShownItem(results[i], w)
    {
      items := [];
      var k := 0;
      assert RowsOf(results[..0]) == [];
      hide RowsOf, ShownRow;
      for i := 0 to |results|
        invariant |items| == i && k == |RowsOf(results[..i])|
        invariant forall j | 0 <= j < i :: items[j] == ShownItem(results[j], w)
      {
        assert results[i] in results;
        NextRow(results, i);
        if results[i].duplicate {
          items := items + [results[i]];
        } else {
          items := items + [results[i].(notification := Some(shown[k]))];
          k := k + 1;
        }
      }
    }

    /** The accounting loop of the batch endpoint. */
    method Account(results: seq<CreateResult>) returns (created: nat, duplicates: nat, added: seq<Row>)
      requires forall r | r in results :: r.notification.Some?
      ensures added == RowsOf(results) && duplicates == CountDuplicates(results)
      ensures created + duplicates == |results| && created == |added|
      ensures duplicates == |set i | 0 <= i < |results| && results[i].duplicate|
      ensures forall r :: r in added <==>
                exists i :: 0 <= i < |results| && !results[i].duplicate && results[i].notification == Some(r)
    {
      DuplicatesCounted(results);
      forall r ensures r in RowsOf(results) <==>
                  exists i :: 0 <= i < |results| && !results[i].duplicate && results[i].notification == Some(r)
      {
        RowsOfHas(results, r);
      }
      created, duplicates, added := 0, 0, [];
      for i := 0 to |results|
        invariant added == RowsOf(results[..i]) && duplicates == CountDuplicates(results[..i])
        invariant created + duplicates == i && created == |added|
      {
        assert results[..i + 1][..i] == results[..i] && results[i] in results;
        if results[i].duplicate {
          duplicates := duplicates + 1;
        } else {
          created := created + 1;
          added := added + [results[i].notification.value];
        }
      }
      assert results[..|results|] == results;
    }
  }

  lemma {:induction false} PendingAreAmong(ns: seq<Row>)
    ensures PendingRows(ns) == [] ==> forall i | 0 <= i < |ns| :: ns[i].status != Pending
  {
    if ns != [] { PendingAreAmong(ns[..|ns| - 1]); }
  }
}
