/** The repository: the methods that read and write the notifications table. */
module Storage {
  import opened Domain
  import opened Table

  /** Duplicate is set when the key was already used; the notification is then the stored one. */
  datatype CreateResult = CreateResult(notification: Option<Row>, duplicate: bool)

  /** Where a batch insert meets a database error. */
  datatype Fault = NoFault | InsertFails(at: nat) | CommitFails | LookupFails

  /** Whether the error keeps a batch with these results from being answered. */
  ghost predicate BatchFails(fault: Fault, results: seq<CreateResult>) {
    match fault
    case NoFault => false
    case InsertFails(at) => at < |results|
    case CommitFails => true
    case LookupFails => exists r :: r in results && r.duplicate
  }

  datatype CancelOutcome = NotFound | Done(row: Row) | TooLate(row: Row)

  // ----- Create, as the single-item path does it -----

  ghost function CreateOne(rows: Rows, d: Draft): (Rows, CreateResult) {
    if KeyTaken(rows, d.key) then (rows, CreateResult(Some(rows[Holder(rows, d.key)]), true))
    else (rows[d.id := FreshRow(d)], CreateResult(Some(FreshRow(d)), false))
  }

  /** Creating one after the other. */
  ghost function FoldCreate(rows: Rows, ds: seq<Draft>): (r: (Rows, seq<CreateResult>))
    ensures |r.1| == |ds| && forall x | x in r.1 :: x.notification.Some?
  {
    if ds == [] then (rows, [])
    else
      var (t, results) := FoldCreate(rows, ds[..|ds| - 1]);
      var (t', result) := CreateOne(t, ds[|ds| - 1]);
      (t', results + [result])
  }

  lemma FoldStep(rows: Rows, ds: seq<Draft>, i: nat)
    requires i < |ds|
    ensures var (t, results) := FoldCreate(rows, ds[..i]);
            FoldCreate(rows, ds[..i + 1]) == (CreateOne(t, ds[i]).0, results + [CreateOne(t, ds[i]).1])
  {
    assert ds[..i + 1][..i] == ds[..i];
  }

  lemma {:induction false} FoldIsInsertAll(rows: Rows, ds: seq<Draft>)
    ensures FoldCreate(rows, ds).0 == InsertAll(rows, ds)
  {
    if ds != [] { FoldIsInsertAll(rows, ds[..|ds| - 1]); }
  }

  /** In a table that only grew, a key still leads to the row it led to. */
  lemma HolderStands(rows: Rows, t: Rows, key: Option<string>)
    requires Extends(rows, t) && KeysUnique(t) && KeyTaken(rows, key)
    ensures KeyTaken(t, key) && Holder(t, key) == Holder(rows, key) && t[Holder(t, key)] == rows[Holder(rows, key)]
  {
    assert t[Holder(rows, key)].draft.key == key;
  }

  /** What one more create does to a fold. */
  lemma FoldGrows(rows: Rows, ds: seq<Draft>)
    requires ds != [] && Keyed(rows) && FreshIds(rows, ds)
    ensures var n := |ds| - 1;
            var t := FoldCreate(rows, ds[..n]).0;
            && Keyed(t) && ds[n].id !in t
            && Extends(t, FoldCreate(rows, ds).0) && Keyed(FoldCreate(rows, ds).0)
  {
    var n := |ds| - 1;
    FoldIsInsertAll(rows, ds[..n]);
    InsertAllEffect(rows, ds[..n]);
    InsertEffect(FoldCreate(rows, ds[..n]).0, ds[n]);
  }

  lemma FoldKeeps(rows: Rows, ds: seq<Draft>)
    requires Keyed(rows) && FreshIds(rows, ds)
    ensures Keyed(FoldCreate(rows, ds).0) && Extends(rows, FoldCreate(rows, ds).0)
  {
    FoldIsInsertAll(rows, ds);
    InsertAllEffect(rows, ds);
  }

  /** Looking a duplicate up after all inserts finds what looking it up at once would have found. */
  lemma {:induction false} LateLookup(rows: Rows, ds: seq<Draft>, i: nat)
    requires i < |ds| && Keyed(rows) && FreshIds(rows, ds)
    ensures var (t, results) := FoldCreate(rows, ds);
            results[i].duplicate ==>
              KeyTaken(t, ds[i].key) && results[i].notification == Some(t[Holder(t, ds[i].key)])
  {
    var n := |ds| - 1;
    FoldGrows(rows, ds);
    if i < n {
      LateLookup(rows, ds[..n], i);
      if FoldCreate(rows, ds[..n]).1[i].duplicate {
        HolderStands(FoldCreate(rows, ds[..n]).0, FoldCreate(rows, ds).0, ds[i].key);
      }
    }
  }

  /** The i-th result is a duplicate exactly when the draft did not make it into the table. */
  lemma {:induction false} FoldSorts(rows: Rows, ds: seq<Draft>, i: nat)
    requires i < |ds| && Keyed(rows) && FreshIds(rows, ds)
    ensures var (t, results) := FoldCreate(rows, ds);
            && (results[i].duplicate <==> ds[i].id !in t)
            && (!results[i].duplicate ==> results[i].notification == Some(FreshRow(ds[i])))
  {
    FoldGrows(rows, ds);
    if i < |ds| - 1 { FoldSorts(rows, ds[..|ds| - 1], i); }
  }

  // ----- Which row an item of a batch is answered with -----

  /** The first item of the batch with this key. */
  function FirstWith(ds: seq<Draft>, key: Option<string>): (f: nat)
    requires exists d :: d in ds && d.key == key
    ensures f < |ds| && ds[f].key == key && forall k | 0 <= k < f :: ds[k].key != key
  {
    if ds[0].key == key then 0 else 1 + FirstWith(ds[1..], key)
  }

  /** Where an item's row comes from: its own insert without a key, and otherwise the row that held
      the key before the batch or else the first item that carries it. */
  ghost function Origin(rows: Rows, ds: seq<Draft>, i: nat): Draft
    requires i < |ds|
  {
    if ds[i].key.None? then ds[i]
    else if KeyTaken(rows, ds[i].key) then rows[Holder(rows, ds[i].key)].draft
    else assert ds[i] in ds; ds[FirstWith(ds, ds[i].key)]
  }

  /** A key that is new to the table goes to the first item that carries it. */
  lemma {:induction false} FirstTakesKey(rows: Rows, ds: seq<Draft>, key: Option<string>, f: nat)
    requires Keyed(rows) && FreshIds(rows, ds) && key.Some? && !KeyTaken(rows, key)
    requires f < |ds| && ds[f].key == key && forall k | 0 <= k < f :: ds[k].key != key
    ensures var t := FoldCreate(rows, ds).0; KeyTaken(t, key) && t[Holder(t, key)] == FreshRow(ds[f])
  {
    var n := |ds| - 1;
    var before := FoldCreate(rows, ds[..n]).0;
    FoldGrows(rows, ds);
    assert FoldCreate(rows, ds).0 == CreateOne(before, ds[n]).0;
    if f < n {
      PrefixIsFresh(rows, ds, n);
      hide Keyed, KeyTaken, FreshIds, FoldCreate, Extends, CreateOne;
      FirstTakesKey(rows, ds[..n], key, f);
      HolderStaysFor(before, ds[n], key);
    } else {
      assert forall d | d in ds[..n] :: d.key != key;
      PrefixIsFresh(rows, ds, n);
      hide Keyed, KeyTaken, FreshIds, FoldCreate, Extends, CreateOne;
      NobodyTakesKey(rows, ds[..n], key);
      NewHolder(before, ds[n]);
    }
  }

  lemma PrefixIsFresh(rows: Rows, ds: seq<Draft>, n: nat)
    requires FreshIds(rows, ds) && n <= |ds|
    ensures FreshIds(rows, ds[..n])
  {
  }

  /** One more create leaves a key with its holder. */
  lemma HolderStaysFor(rows: Rows, d: Draft, key: Option<string>)
    requires Keyed(rows) && d.id !in rows && KeyTaken(rows, key)
    ensures var t := CreateOne(rows, d).0; KeyTaken(t, key) && t[Holder(t, key)] == rows[Holder(rows, key)]
  {
    InsertEffect(rows, d);
    HolderStands(rows, CreateOne(rows, d).0, key);
  }

  lemma NewHolder(rows: Rows, d: Draft)
    requires Keyed(rows) && d.id !in rows && d.key.Some? && !KeyTaken(rows, d.key)
    ensures var t := CreateOne(rows, d).0; KeyTaken(t, d.key) && t[Holder(t, d.key)] == FreshRow(d)
  {
    assert rows[d.id := FreshRow(d)][d.id].draft.key == d.key;
  }

  lemma NobodyTakesKey(rows: Rows, ds: seq<Draft>, key: Option<string>)
    requires Keyed(rows) && FreshIds(rows, ds) && !KeyTaken(rows, key) && forall d | d in ds :: d.key != key
    ensures !KeyTaken(FoldCreate(rows, ds).0, key)
  {
    var t := FoldCreate(rows, ds).0;
    FoldIsInsertAll(rows, ds);
    InsertAllEffect(rows, ds);
    assert forall id | id in t && id !in rows :: t[id].draft in ds;
  }

  /** Each item of a batch is answered with the row of its origin, so it is shown its own payload
      exactly when the origin carries it. */
  lemma ItemIsOrigin(rows: Rows, ds: seq<Draft>, i: nat)
    requires i < |ds| && Keyed(rows) && FreshIds(rows, ds)
    ensures var shown := FoldCreate(rows, ds).1[i].notification;
            && shown.Some? && shown.value.draft == Origin(rows, ds, i)
            && (shown.value.SamePayload(ds[i].recipient, ds[i].channel, ds[i].content)
                <==> var o := Origin(rows, ds, i);
                     o.recipient == ds[i].recipient && o.channel == ds[i].channel && o.content == ds[i].content)
  {
    var t, results := FoldCreate(rows, ds).0, FoldCreate(rows, ds).1;
    var key := ds[i].key;
    FoldKeeps(rows, ds);
    FoldSorts(rows, ds, i);
    LateLookup(rows, ds, i);
    OwnRow(rows, ds, i);
    if key.Some? {
      if KeyTaken(rows, key) {
        HolderStands(rows, t, key);
      } else {
        assert ds[i] in ds;
        FirstTakesKey(rows, ds, key, FirstWith(ds, key));
      }
    }
  }

  /** A draft that made it into the table holds its key there. */
  lemma OwnRow(rows: Rows, ds: seq<Draft>, i: nat)
    requires i < |ds| && Keyed(rows) && FreshIds(rows, ds)
    ensures var t := FoldCreate(rows, ds).0;
            && (ds[i].id in t ==> t[ds[i].id] == FreshRow(ds[i]))
            && (ds[i].id in t && ds[i].key.Some? ==> KeyTaken(t, ds[i].key) && Holder(t, ds[i].key) == ds[i].id)
            && (ds[i].key.None? ==> ds[i].id in t)
  {
    FoldIsInsertAll(rows, ds);
    InsertAllEffect(rows, ds);
    assert Settled(InsertAll(rows, ds), ds[i]);
  }

  // ----- What creating one after the other comes to -----

  /** After the drafts a key is taken if it was before or a draft carries it. */
  lemma TakenAfter(rows: Rows, ds: seq<Draft>, key: Option<string>)
    requires Keyed(rows) && FreshIds(rows, ds) && key.Some?
    ensures KeyTaken(FoldCreate(rows, ds).0, key) <==> KeyTaken(rows, key) || exists d :: d in ds && d.key == key
  {
    var t := FoldCreate(rows, ds).0;
    FoldIsInsertAll(rows, ds);
    InsertAllEffect(rows, ds);
    hide FoldCreate, InsertAll, FreshIds;
    if KeyTaken(rows, key) { HolderStands(rows, t, key); }
    if d :| d in ds && d.key == key {
      assert Settled(t, d);
    }
    if KeyTaken(t, key) && Holder(t, key) !in rows {
      assert t[Holder(t, key)].draft in ds;
    }
  }

  /** A result depends on the drafts before it only. */
  lemma {:induction false} ResultAt(rows: Rows, ds: seq<Draft>, i: nat)
    requires i < |ds|
    ensures FoldCreate(rows, ds).1[i] == CreateOne(FoldCreate(rows, ds[..i]).0, ds[i]).1
  {
    if i < |ds| - 1 {
      ResultAt(rows, ds[..|ds| - 1], i);
      assert ds[..|ds| - 1][..i] == ds[..i];
    }
  }

  /** An item is a duplicate when a row before the batch or an earlier item has its key, and is
      answered with that row or with the row of the first such item. Otherwise its own row is new. */
  lemma ItemIsSettled(rows: Rows, ds: seq<Draft>, i: nat)
    requires i < |ds| && Keyed(rows) && FreshIds(rows, ds)
    ensures var result := FoldCreate(rows, ds).1[i];
            && result.notification.Some?
            && (result.duplicate <==>
                  ds[i].key.Some? && ((exists id :: id in rows && rows[id].draft.key == ds[i].key)
                                      || exists k :: 0 <= k < i && ds[k].key == ds[i].key))
            && (!result.duplicate ==>
                  result.notification.value ==
                    Row(ds[i], if ds[i].scheduledAt.Some? then Scheduled else Pending, 0, None, None, ds[i].createdAt,
                        None))
            && (result.duplicate ==>
                  && (forall id | id in rows && rows[id].draft.key == ds[i].key ::
                        result.notification.value == rows[id])
                  && (forall k | 0 <= k < i && ds[k].key == ds[i].key
                                 && (forall id | id in rows :: rows[id].draft.key != ds[i].key)
                                 && (forall m | 0 <= m < k :: ds[m].key != ds[i].key) ::
                        result.notification.value ==
                          Row(ds[k], if ds[k].scheduledAt.Some? then Scheduled else Pending, 0, None, None,
                              ds[k].createdAt, None)))
  {
    var (t, results) := FoldCreate(rows, ds);
    var key := ds[i].key;
    DuplicateIff(rows, ds, i);
    FoldKeeps(rows, ds);
    FoldSorts(rows, ds, i);
    LateLookup(rows, ds, i);
    assert results[i] in results;
    if results[i].duplicate {
      forall id | id in rows && rows[id].draft.key == key ensures results[i].notification.value == rows[id] {
        assert t[id] == rows[id];
      }
      forall k | 0 <= k < i && ds[k].key == key && (forall id | id in rows :: rows[id].draft.key != key)
                 && (forall m | 0 <= m < k :: ds[m].key != key)
        ensures results[i].notification.value == FreshRow(ds[k])
      {
        FirstTakesKey(rows, ds, key, k);
      }
    }
  }

  lemma DuplicateIff(rows: Rows, ds: seq<Draft>, i: nat)
    requires i < |ds| && Keyed(rows) && FreshIds(rows, ds)
    ensures FoldCreate(rows, ds).1[i].duplicate <==>
              ds[i].key.Some? && (KeyTaken(rows, ds[i].key) || exists k :: 0 <= k < i && ds[k].key == ds[i].key)
  {
    ResultAt(rows, ds, i);
    PrefixIsFresh(rows, ds, i);
    hide FoldCreate, FreshIds, Keyed;
    if ds[i].key.Some? { TakenAfter(rows, ds[..i], ds[i].key); }
  }

  /** Nothing is in the table afterwards but what was there and the new rows of the items. */
  lemma TableIsSettled(rows: Rows, ds: seq<Draft>)
    requires Keyed(rows) && FreshIds(rows, ds)
    ensures var (t, results) := FoldCreate(rows, ds);
            && (forall id | id in rows :: id in t && t[id] == rows[id])
            && (forall i | 0 <= i < |ds| && !results[i].duplicate ::
                  ds[i].id in t && results[i].notification == Some(t[ds[i].id]))
            && (forall id | id in t && id !in rows ::
                  exists i :: 0 <= i < |ds| && ds[i].id == id && !results[i].duplicate)
  {
    var (t, results) := FoldCreate(rows, ds);
    FoldIsInsertAll(rows, ds);
    InsertAllEffect(rows, ds);
    hide FoldCreate, InsertAll;
    forall i | 0 <= i < |ds|
      ensures results[i].duplicate <==> ds[i].id !in t
      ensures !results[i].duplicate ==> results[i].notification == Some(t[ds[i].id])
    {
      FoldSorts(rows, ds, i);
      OwnRow(rows, ds, i);
    }
    forall id | id in t && id !in rows
      ensures exists i :: 0 <= i < |ds| && ds[i].id == id && !results[i].duplicate
    {
      var i :| 0 <= i < |ds| && ds[i] == t[id].draft;
      assert ds[i].id == id;
    }
  }

  /** Results as the first pass leaves them: duplicates not yet looked up. */
  function Unresolved(results: seq<CreateResult>): (blank: seq<CreateResult>)
    ensures |blank| == |results|
  {
    seq(|results|, i requires 0 <= i < |results| =>
      if results[i].duplicate then CreateResult(None, true) else results[i])
  }

  /** The keys to look up are those of the duplicates. */
  ghost predicate KeysOfDuplicates(keys: seq<string>, results: seq<CreateResult>, ds: seq<Draft>)
    requires |results| <= |ds|
  {
    && (forall j | 0 <= j < |results| && results[j].duplicate :: ds[j].key.Some? && ds[j].key.value in keys)
    && (keys == [] <==> forall r | r in results :: !r.duplicate)
  }

  lemma UnresolvedGrows(results: seq<CreateResult>, last: CreateResult, keys: seq<string>, ds: seq<Draft>)
    requires |results| < |ds| && KeysOfDuplicates(keys, results, ds)
    requires last.duplicate ==> ds[|results|].key.Some?
    ensures Unresolved(results + [last]) == Unresolved(results) + [if last.duplicate
        then CreateResult(None, true) else last]
    ensures KeysOfDuplicates(if last.duplicate then keys + [ds[|results|].key.value] else keys, results + [last], ds)
  {
  }

  /** A list of rows in order, all of them before the ones still to come. */
  ghost predicate Listed(kind: Kind, rows: Rows, batch: seq<Row>, todo: set<Id>) {
    && todo <= rows.Keys && DistinctIds(batch) && Sorted(kind, batch)
    && (forall r | r in batch :: r.draft.id in rows && rows[r.draft.id] == r && r.draft.id !in todo)
    && (forall r, id | r in batch && id in todo :: SortKey(kind, r) <= SortKey(kind, rows[id]))
  }

  lemma ListedGrows(kind: Kind, rows: Rows, batch: seq<Row>, todo: set<Id>, id: Id)
    requires Listed(kind, rows, batch, todo) && WellKeyed(rows) && id in todo
    requires forall j | j in todo :: SortKey(kind, rows[id]) <= SortKey(kind, rows[j])
    ensures Listed(kind, rows, batch + [rows[id]], todo - {id})
  {
    assert forall i | 0 <= i < |batch| :: batch[i] in batch;
  }

  class Repository {
    var rows: Rows

    constructor ()
      ensures rows == map[]
    {
      rows := map[];
    }

    method GetByKey(key: Option<string>) returns (row: Row)
      requires Keyed(rows) && KeyTaken(rows, key)
      ensures row == rows[Holder(rows, key)]
    {
      var id :| id in rows && rows[id].draft.key == key;
      row := rows[id];
    }

    method GetByKeys(keys: seq<string>) returns (found: map<string, Row>)
      requires Keyed(rows)
      ensures forall k :: k in found <==> k in keys && KeyTaken(rows, Some(k))
      ensures forall k | k in found :: found[k] == rows[Holder(rows, Some(k))]
    {
      found := map[];
      var todo := rows.Keys;
      while todo != {}
        invariant todo <= rows.Keys
        invariant forall k :: k in found <==>
                    k in keys && exists id :: id in rows && id !in todo && rows[id].draft.key == Some(k)
        invariant forall k | k in found :: KeyTaken(rows, Some(k)) && found[k] == rows[Holder(rows, Some(k))]
        decreases todo
      {
        var id :| id in todo;
        todo := todo - {id};
        if rows[id].draft.key.Some? && rows[id].draft.key.value in keys {
          assert rows[Holder(rows, rows[id].draft.key)].draft.key == rows[id].draft.key;
          found := found[rows[id].draft.key.value := rows[id]];
        }
      }
    }

    /** Inserts, and on a conflict returns the row that holds the key. */
    method Create(d: Draft, fails: bool) returns (res: Option<CreateResult>)
      requires Keyed(rows) && d.id !in rows
      modifies this
      ensures Keyed(rows)
      ensures if fails
          then res.None? && rows == old(rows) else res.Some? && (rows, res.value) == CreateOne(old(rows), d)
      ensures res.Some? ==>
        && res.value.notification.Some?
        && (res.value.duplicate <==> d.key.Some? && exists id :: id in old(rows) && old(rows)[id].draft.key == d.key)
        && (res.value.duplicate ==>
              && rows == old(rows)
              && forall id | id in old(rows) && old(rows)[id].draft.key == d.key ::
                   res.value.notification.value == old(rows)[id])
        && (!res.value.duplicate ==>
              && rows == old(rows)[d.id := res.value.notification.value]
              && res.value.notification.value ==
                   Row(d, if d.scheduledAt.Some? then Scheduled else Pending, 0, None, None, d.createdAt, None))
    {
      if fails { return None; }
      InsertEffect(rows, d);
      if !KeyTaken(rows, d.key) {
        rows := rows[d.id := FreshRow(d)];
        return Some(CreateResult(Some(FreshRow(d)), false));
      }
      var existing := GetByKey(d.key);
      res := Some(CreateResult(Some(existing), true));
    }

    /** One transaction for all inserts, one query for all conflicts; nothing is kept unless the
        commit succeeds, and everything is kept once it has. */
    method CreateBatch(ds: seq<Draft>, fault: Fault) returns (ok: bool, results: seq<CreateResult>)
      requires Keyed(rows) && FreshIds(rows, ds)
      modifies this
      ensures Keyed(rows)
      ensures ok <==> !BatchFails(fault, FoldCreate(old(rows), ds).1)
      ensures ok ==> (rows, results) == FoldCreate(old(rows), ds)
      ensures fault.NoFault? || (fault.InsertFails? && fault.at >= |ds|) ==> ok
      ensures fault.CommitFails? || (fault.InsertFails? && fault.at < |ds|) ==> !ok && rows == old(rows)
      ensures fault.LookupFails? ==>
                && rows == FoldCreate(old(rows), ds).0
                && (ok <==> forall r | r in FoldCreate(old(rows), ds).1 :: !r.duplicate)
    {
      ghost var fold := FoldCreate(rows, ds);
      var t, duplicateKeys;
      ok, t, results, duplicateKeys := InsertPass(ds, fault);
      if !ok || fault.CommitFails? { return false, []; }
      FoldKeeps(rows, ds);
      rows := t;
      if |duplicateKeys| > 0 {
        if fault.LookupFails? { return false, []; }
        var existing := GetByKeys(duplicateKeys);
        results := Resolve(ds, results, existing, old(rows));
      } else {
        assert forall j | 0 <= j < |ds| :: fold.1[j] in fold.1;
        assert Unresolved(fold.1) == fold.1;
      }
    }

    /** The second pass: duplicates get the row that holds their key now. */
    method Resolve(ds: seq<Draft>, blank: seq<CreateResult>, existing: map<string, Row>, ghost before: Rows)
      returns (results: seq<CreateResult>)
      requires Keyed(before) && FreshIds(before, ds)
      requires rows == FoldCreate(before, ds).0 && blank == Unresolved(FoldCreate(before, ds).1)
      requires forall j | 0 <= j < |ds| && blank[j].duplicate ::
                 ds[j].key.Some? && (KeyTaken(rows, ds[j].key) ==> ds[j].key.value in existing)
      requires forall k | k in existing :: KeyTaken(rows, Some(k)) && existing[k] == rows[Holder(rows, Some(k))]
      ensures results == FoldCreate(before, ds).1
    {
      ghost var fold := FoldCreate(before, ds);
      results := blank;
      var i := 0;
      while i < |results|
        invariant i <= |results| == |ds|
        invariant forall j | 0 <= j < i :: results[j] == fold.1[j]
        invariant forall j | i <= j < |ds| :: results[j] == blank[j]
      {
        LateLookup(before, ds, i);
        if results[i].duplicate {
          results := results[i := results[i].(notification := Some(existing[ds[i].key.value]))];
        }
        i := i + 1;
      }
    }

    /** The inserts, on the transaction's own view of the table. */
    method InsertPass(ds: seq<Draft>, fault: Fault)
      returns (ok: bool, t: Rows, results: seq<CreateResult>, duplicateKeys: seq<string>)
      requires Keyed(rows) && FreshIds(rows, ds)
      ensures ok <==> !(fault.InsertFails? && fault.at < |ds|)
      ensures ok ==> t == FoldCreate(rows, ds).0 && results == Unresolved(FoldCreate(rows, ds).1)
      ensures ok ==> KeysOfDuplicates(duplicateKeys, FoldCreate(rows, ds).1, ds)
    {
      t, results, duplicateKeys := rows, [], [];
      var i := 0;
      assert ds[..0] == [] && FoldCreate(rows, []) == (rows, []) && KeysOfDuplicates([], [], ds);
      hide FoldCreate, KeysOfDuplicates, Unresolved;
      while i < |ds|
        invariant i <= |ds| && (fault.InsertFails? ==> i <= fault.at)
        invariant t == FoldCreate(rows, ds[..i]).0 && results == Unresolved(FoldCreate(rows, ds[..i]).1)
        invariant KeysOfDuplicates(duplicateKeys, FoldCreate(rows, ds[..i]).1, ds)
      {
        if fault == InsertFails(i) { return false, t, [], []; }
        var d := ds[i];
        FoldStep(rows, ds, i);
        UnresolvedGrows(FoldCreate(rows, ds[..i]).1, CreateOne(t, d).1, duplicateKeys, ds);
        if !KeyTaken(t, d.key) {
          t := t[d.id := FreshRow(d)];
          results := results + [CreateResult(Some(FreshRow(d)), false)];
        } else {
          results := results + [CreateResult(None, true)];
          duplicateKeys := duplicateKeys + [d.key.value];
        }
        i := i + 1;
      }
      assert ds[..i] == ds;
      ok := true;
    }

    /** Freshly published notifications go from pending to queued; any other status is left alone. */
    method MarkQueued(ids: seq<Id>, now: Time)
      modifies this
      ensures rows == Table.MarkQueued(old(rows), (set id | id in ids), now)
      ensures rows.Keys == old(rows).Keys
      ensures forall id | id in rows :: rows[id] ==
                if id in ids && old(rows)[id].status == Pending
                then old(rows)[id].(status := Queued, updatedAt := now) else old(rows)[id]
    {
      rows := map id | id in rows ::
        if id in ids && rows[id].status == Pending then rows[id].(status := Queued, updatedAt := now) else rows[id];
    }

    /** The claim: the row moves to processing exactly when it was queued or pending. */
    method MarkProcessing(id: Id, now: Time) returns (claimed: bool)
      modifies this
      ensures claimed <==> id in old(rows) && old(rows)[id].status in {Queued, Pending}
      ensures claimed <==> id in old(rows) && Claimable(old(rows)[id].status)
      ensures rows == if claimed then old(rows)[id := ClaimedRow(old(rows)[id], now)] else old(rows)
      ensures claimed ==>
        var r := old(rows)[id];
        rows == old(rows)[id := r.(status := Processing, attempts := r.attempts + 1, updatedAt := now)]
    {
      claimed := id in rows && (rows[id].status == Queued || rows[id].status == Pending);
      if claimed {
        rows := rows[id := rows[id].(status := Processing, attempts := rows[id].attempts + 1, updatedAt := now)];
      }
    }

    /** No guard on the status: whatever row has this id becomes sent. */
    method MarkSent(id: Id, providerId: string, now: Time)
      modifies this
      ensures rows == if id in old(rows) then old(rows)[id := SentRow(old(rows)[id], providerId, now)] else old(rows)
      ensures id in old(rows) ==>
        && rows[id].status == Sent && rows[id].sentAt == Some(now) && rows[id].updatedAt == now
        && rows[id].providerId == (if providerId == "" then None else Some(providerId)) && rows[id].lastError.None?
        && rows[id].draft == old(rows)[id].draft && rows[id].attempts == old(rows)[id].attempts
        && rows == old(rows)[id := rows[id]]
    {
      var stored := if providerId != "" then Some(providerId) else None;
      if id in rows {
        rows := rows[id := rows[id].(status := Sent, providerId := stored, sentAt := Some(now),
                                     lastError := None, updatedAt := now)];
      }
    }

    method MarkDead(id: Id, error: string, now: Time)
      modifies this
      ensures rows == if id in old(rows) then old(rows)[id := DeadRow(old(rows)[id], error, now)] else old(rows)
      ensures id in old(rows) ==>
        && rows[id] == old(rows)[id].(status := Dead, lastError := Some(error), updatedAt := now)
        && rows == old(rows)[id := rows[id]]
    {
      if id in rows {
        rows := rows[id := rows[id].(status := Dead, lastError := Some(error), updatedAt := now)];
      }
    }

    /** Cancels exactly what no worker has claimed yet, and says what it found otherwise. */
    method Cancel(id: Id, now: Time) returns (outcome: CancelOutcome)
      modifies this
      ensures outcome.NotFound? <==> id !in old(rows)
      ensures outcome.Done? <==> id in old(rows) && old(rows)[id].status in {Pending, Queued, Scheduled}
      ensures outcome.TooLate? <==> id in old(rows) && old(rows)[id].status in {Processing, Sent, Dead, Cancelled}
      ensures outcome.Done? ==>
        && rows == old(rows)[id := outcome.row]
        && outcome.row == old(rows)[id].(status := Cancelled, updatedAt := now)
      ensures outcome.Done? <==> id in old(rows) && Cancellable(old(rows)[id].status)
      ensures outcome.Done? ==> outcome.row == CancelledRow(old(rows)[id], now)
      ensures !outcome.Done? ==> rows == old(rows)
      ensures outcome.TooLate? ==> outcome.row == rows[id]
    {
      if id !in rows { return NotFound; }
      if rows[id].status == Pending || rows[id].status == Queued || rows[id].status == Scheduled {
        rows := rows[id := rows[id].(status := Cancelled, updatedAt := now)];
        return Done(rows[id]);
      }
      outcome := TooLate(rows[id]);
    }

    /** SELECT ... ORDER BY ... LIMIT ... FOR UPDATE SKIP LOCKED: ties come in any order. */
    method SelectForUpdate(kind: Kind, now: Time, limit: nat, locked: set<Id>) returns (batch: seq<Row>)
      requires WellKeyed(rows)
      ensures IsBatch(kind, rows, locked, now, limit, batch)
    {
      batch := [];
      var todo := set id | id in rows && id !in locked && Eligible(kind, rows[id], now);
      ghost var all := todo;
      while todo != {} && |batch| < limit
        invariant |batch| <= limit && todo <= all == EligibleIds(kind, rows, locked, now)
        invariant Ids(batch) == all - todo && Listed(kind, rows, batch, todo)
        decreases todo
      {
        ghost var earliest := EarliestExists(kind, rows, todo);
        var id :| id in todo && forall j | j in todo :: SortKey(kind, rows[id]) <= SortKey(kind, rows[j]);
        IdsAppend(batch, [rows[id]]);
        ListedGrows(kind, rows, batch, todo, id);
        assert Ids([rows[id]]) == {id};
        batch := batch + [rows[id]];
        todo := todo - {id};
      }
      assert forall r | r in batch :: r.draft.id in Ids(batch);
    }

    /** Publishes a batch of due notifications while they are locked and then queues them; when
        the publish fails, nothing has changed. Returns the batch, or None on an error. */
    method DispatchDue(now: Time, limit: int, locked: set<Id>, stamp: Time, published: bool)
      returns (due: Option<seq<Row>>)
      requires WellKeyed(rows)
      modifies this
      ensures limit < 0 ==> due.None?
      ensures due.Some? ==> IsBatch(Dispatch, old(rows), locked, now, limit, due.value)
      ensures due.Some? ==> rows == Requeue(old(rows), Ids(due.value), stamp)
      ensures due.None? ==> rows == old(rows) && (limit < 0 || !published)
    {
      if limit < 0 { return None; }
      var batch := SelectForUpdate(Dispatch, now, limit, locked);
      if |batch| == 0 {
        assert Requeue(rows, Ids([]), stamp) == rows;
        return Some([]);
      }
      if !published { return None; }
      rows := map id | id in rows ::
          if id in Ids(batch) then rows[id].(status := Queued, updatedAt := stamp) else rows[id];
      due := Some(batch);
    }

    /** The same for notifications stranded in a non-final status; returns them as they were. */
    method ReapStuck(now: Time, pendingAfter: Time, inflightAfter: Time, limit: int, locked: set<Id>, stamp: Time,
        published: bool)
      returns (stuck: Option<seq<Row>>)
      requires WellKeyed(rows)
      modifies this
      ensures limit < 0 ==> stuck.None?
      ensures stuck.Some? ==> IsBatch(Reap(pendingAfter, inflightAfter), old(rows), locked, now, limit, stuck.value)
      ensures stuck.Some? ==> rows == Requeue(old(rows), Ids(stuck.value), stamp)
      ensures stuck.None? ==> rows == old(rows) && (limit < 0 || !published)
    {
      if limit < 0 { return None; }
      var batch := SelectForUpdate(Reap(pendingAfter, inflightAfter), now, limit, locked);
      if |batch| == 0 {
        assert Requeue(rows, Ids([]), stamp) == rows;
        return Some([]);
      }
      if !published { return None; }
      rows := map id | id in rows ::
          if id in Ids(batch) then rows[id].(status := Queued, updatedAt := stamp) else rows[id];
      stuck := Some(batch);
    }
  }
}
