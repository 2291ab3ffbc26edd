/** The create endpoints do what the protocol's request steps allow: one request is a
    run of the state machine with the same table, the same messages and the same replies. */
module ApiRefinement {
  import opened Domain
  import opened Table
  import opened Storage
  import opened Protocol
  import opened Invariants
  import opened Refinement
  import H = Handlers

  // ----- New rows and drafts -----

  function DraftsOf(ns: seq<Row>): set<Draft> { set r | r in ns :: r.draft }

  /** These fresh rows are what a request inserted. */
  ghost predicate Inserts(ns: seq<Row>, added: set<Draft>) {
    (forall r | r in ns :: r == FreshRow(r.draft)) && DraftsOf(ns) == added
  }

  /** The rows the handler publishes are the drafts the protocol calls pending. */
  lemma PendingAgree(ns: seq<Row>, added: set<Draft>)
    requires Inserts(ns, added)
    ensures Ids(H.PendingRows(ns)) == IdsOf(PendingOf(added))
    ensures forall r | r in H.PendingRows(ns) :: r.draft in PendingOf(added)
    ensures forall d | d in PendingOf(added) :: FreshRow(d) in H.PendingRows(ns)
  {
    forall r | r in H.PendingRows(ns) ensures r in ns && r.status == Pending && r.draft in PendingOf(added) {
      H.PendingHas(ns, r);
      assert r.draft in DraftsOf(ns);
    }
    forall d | d in PendingOf(added) ensures FreshRow(d) in H.PendingRows(ns) {
      var r :| r in ns && r.draft == d;
      H.PendingHas(ns, r);
    }
    forall id | id in IdsOf(PendingOf(added)) ensures id in Ids(H.PendingRows(ns)) {
      var d :| d in PendingOf(added) && d.id == id;
      assert FreshRow(d) in H.PendingRows(ns);
    }
  }

  // ----- Lookups -----

  /** One request is open, and every conflict it met has a holder. */
  ghost predicate Asking(s: State, rid: nat) {
    rid in s.requests && s.requests[rid].Inserted? && forall d | d in s.requests[rid].conflicts ::
        KeyTaken(s.rows, d.key)
  }

  lemma OneLookup(cfg: Config, s: State, rid: nat, d: Draft) returns (t: State)
    requires Asking(s, rid) && d in s.requests[rid].conflicts
    ensures Reaches(cfg, s, [Lookup(rid, d)], t) && Asking(t, rid)
    ensures var r := s.requests[rid];
            t == s.(requests := s.requests[rid := r.(conflicts := r.conflicts - {d})],
                    replies := s.replies + {Found(s.rows, r.single, d)})
  {
    ReachOne(cfg, s, Lookup(rid, d));
    t := Apply(cfg, s, Lookup(rid, d));
  }

  /** All conflicts are looked up, and each is answered with the row that holds its key. */
  lemma {:induction false} LookupAll(cfg: Config, s: State, rid: nat) returns (steps: seq<Step>, t: State)
    requires Asking(s, rid)
    ensures Reaches(cfg, s, steps, t)
    ensures var r := s.requests[rid];
            && t == s.(requests := s.requests[rid := r.(conflicts := {})], replies := t.replies)
            && s.replies <= t.replies
            && forall d | d in r.conflicts :: Found(s.rows, r.single, d) in t.replies
    decreases s.requests[rid].conflicts
  {
    var r := s.requests[rid];
    if r.conflicts == {} {
      steps, t := [], s;
      assert s.requests[rid := r.(conflicts := {})] == s.requests;
    } else {
      var d :| d in r.conflicts;
      hide Reaches;
      var mid := OneLookup(cfg, s, rid, d);
      assert mid.requests[rid].conflicts == r.conflicts - {d};
      var rest, last := LookupAll(cfg, mid, rid);
      ReachOn(cfg, s, [Lookup(rid, d)], mid, rest, last);
      steps, t := [Lookup(rid, d)] + rest, last;
      assert mid.requests[rid := r.(conflicts := {})] == s.requests[rid := r.(conflicts := {})];
    }
  }

  // ----- Publish and queue -----

  function LogOf(ns: seq<Row>, w: H.PublishWorld): set<Record> { set r | r in H.Written(H.PendingRows(ns), w) }

  /** The part of a write that reached the log. */
  function Reached(ns: seq<Row>, w: H.PublishWorld): seq<Row> {
    if w.acknowledged || w.reached > |ns| then ns else ns[..w.reached]
  }

  lemma ReachedRecords(ns: seq<Row>, added: set<Draft>, w: H.PublishWorld)
    requires Inserts(ns, added)
    ensures var part := Reached(H.PendingRows(ns), w);
            Ids(part) <= Ids(H.PendingRows(ns)) && forall r | r in part :: r.draft in PendingOf(added)
    ensures LogOf(ns, w) == set r | r in Reached(H.PendingRows(ns), w) :: RecordOf(r.draft)
  {
    PendingAgree(ns, added);
    var part := Reached(H.PendingRows(ns), w);
    forall r | r in part ensures RecordOf(r.draft) in H.Written(H.PendingRows(ns), w) {
      var i :| 0 <= i < |part| && part[i] == r;
      assert H.Written(H.PendingRows(ns), w)[i] == RecordOf(r.draft);
    }
    forall x | x in H.Written(H.PendingRows(ns), w) ensures exists r :: r in part && x == RecordOf(r.draft) {
      var i :| 0 <= i < |part| && H.Written(H.PendingRows(ns), w)[i] == x;
      assert part[i] in part;
    }
  }

  /** Distinct drafts have distinct ids. */
  ghost predicate OneDraftPerId(ds: set<Draft>) { forall d, e | d in ds && e in ds && d.id == e.id :: d == e }

  lemma RecordsAgree(ns: seq<Row>, added: set<Draft>, w: H.PublishWorld)
    requires Inserts(ns, added) && OneDraftPerId(added)
    ensures RecordsOf(PendingOf(added), Ids(Reached(H.PendingRows(ns), w))) == LogOf(ns, w)
  {
    ReachedRecords(ns, added, w);
    var part := Reached(H.PendingRows(ns), w);
    forall d | d in PendingOf(added) && d.id in Ids(part) ensures exists r :: r in part && r.draft == d {
      var r :| r in part && r.draft.id == d.id;
    }
  }

  lemma PublishRuns(cfg: Config, s: State, rid: nat, ns: seq<Row>, w: H.PublishWorld)
      returns (steps: seq<Step>, t: State)
    requires rid in s.requests && s.requests[rid].Inserted? && s.requests[rid].conflicts == {}
    requires forall d | d in s.requests[rid].added :: !Locked(s.txs, d.id)
    requires Inserts(ns, s.requests[rid].added) && OneDraftPerId(s.requests[rid].added)
    ensures Reaches(cfg, s, steps, t) && t.requests == s.requests - {rid} && t.replies == s.replies
    ensures t.rows == H.AfterPublish(s.rows, ns, w) && t.published == s.published + LogOf(ns, w)
  {
    var added := s.requests[rid].added;
    PendingAgree(ns, added);
    ReachedRecords(ns, added, w);
    RecordsAgree(ns, added, w);
    hide Inserts, OneDraftPerId, RecordOf, LogOf, Reaches, Enabled, Apply, H.Written, Reached;
    if H.PendingRows(ns) == [] {
      steps := [Abandon(rid)];
      t := AbandonRuns(cfg, s, rid);
      assert LogOf(ns, w) == {};
    } else {
      assert H.PendingRows(ns)[0].draft.id in Ids(H.PendingRows(ns));
      var publish := Publish(rid, w.acknowledged, Ids(Reached(H.PendingRows(ns), w)));
      ReachedAll(H.PendingRows(ns), w);
      t := WriteRuns(cfg, s, rid, w.acknowledged, Ids(Reached(H.PendingRows(ns), w)));
      steps := [publish];
      if w.acknowledged {
        var mid := t;
        var mark, last := MarkRuns(cfg, mid, rid, w);
        ReachOn(cfg, s, steps, mid, mark, last);
        steps, t := steps + mark, last;
      }
    }
  }

  lemma ReachedAll(ns: seq<Row>, w: H.PublishWorld)
    ensures w.acknowledged ==> Reached(ns, w) == ns
  {
  }

  lemma AbandonRuns(cfg: Config, s: State, rid: nat) returns (t: State)
    requires rid in s.requests
    ensures t == s.(requests := s.requests - {rid}) && Reaches(cfg, s, [Abandon(rid)], t)
  {
    ReachOne(cfg, s, Abandon(rid));
    t := Apply(cfg, s, Abandon(rid));
  }

  lemma WriteRuns(cfg: Config, s: State, rid: nat, ok: bool, written: set<Id>) returns (t: State)
    requires CanPublish(s, rid, ok, written)
    ensures Reaches(cfg, s, [Publish(rid, ok, written)], t)
    ensures var pending := PendingOf(s.requests[rid].added);
            t == s.(published := s.published + RecordsOf(pending, written), hist := t.hist,
                    requests := if ok then s.requests[rid := Published(IdsOf(pending))] else s.requests - {rid})
  {
    assert Enabled(cfg, s, Publish(rid, ok, written));
    ReachOne(cfg, s, Publish(rid, ok, written));
    t := Apply(cfg, s, Publish(rid, ok, written));
  }

  lemma MarkRuns(cfg: Config, s: State, rid: nat, w: H.PublishWorld) returns (steps: seq<Step>, t: State)
    requires rid in s.requests && s.requests[rid].Published?
    requires forall id | id in s.requests[rid].ids :: !Locked(s.txs, id)
    ensures Reaches(cfg, s, steps, t)
    ensures t == s.(clock := t.clock, requests := s.requests - {rid},
                    rows := if w.updateFails then s.rows else Table.MarkQueued(s.rows, s.requests[rid].ids, w.now))
  {
    var wait, mark := Advance(Later(s.clock, w.now)), if w.updateFails then Abandon(rid) else MarkQueued(rid, w.now);
    ReachOne(cfg, s, wait);
    var mid := Apply(cfg, s, wait);
    assert Enabled(cfg, mid, mark);
    ReachOne(cfg, mid, mark);
    t := Apply(cfg, mid, mark);
    hide Reaches;
    ReachOn(cfg, s, [wait], mid, [mark], t);
    steps := [wait] + [mark];
  }

  // ----- The whole request -----

  /** The handler's result for one item and the protocol's reply to it say the same. */
  ghost predicate AnswersAlike(rows: Rows, result: CreateResult, single: bool, d: Draft, replies: set<Reply>) {
    if result.duplicate
    then KeyTaken(rows, d.key) && result.notification == Some(rows[Holder(rows, d.key)])
        && Found(rows, single, d) in replies
    else result.notification == Some(FreshRow(d)) && Reply(Created, d, d.id) in replies
  }

  lemma AnswerIs(rows: Rows, result: CreateResult, single: bool, d: Draft, replies: set<Reply>)
    requires AnswersAlike(rows, result, single, d, replies) && Keyed(rows)
    ensures result.notification.Some?
    ensures var shown := result.notification.value;
            if result.duplicate then
              && shown.draft.key == d.key && shown.draft.id in rows && rows[shown.draft.id] == shown
              && Reply(if !single then BatchDuplicate
                       else if shown.draft.recipient == d.recipient
                           && shown.draft.channel == d.channel && shown.draft.content == d.content
                       then Replayed else Mismatch,
                       d, shown.draft.id) in replies
            else shown.draft == d && Reply(Created, d, d.id) in replies
  {
  }

  lemma ItemIsAnswered(rows: Rows, ds: seq<Draft>, i: nat, single: bool, conflicts: set<Draft>, replies: set<Reply>)
    requires i < |ds| && Keyed(rows) && FreshIds(rows, ds)
    requires forall d | d in conflicts ::
               KeyTaken(FoldCreate(rows, ds).0, d.key) && Found(FoldCreate(rows, ds).0, single, d) in replies
    requires if FoldCreate(rows, ds).1[i].duplicate
        then ds[i] in conflicts else Reply(Created, ds[i], ds[i].id) in replies
    ensures AnswersAlike(FoldCreate(rows, ds).0, FoldCreate(rows, ds).1[i], single, ds[i], replies)
  {
    LateLookup(rows, ds, i);
    FoldSorts(rows, ds, i);
  }

  /** A whole create request, single or batch, errors included: the protocol can go the same way, to
      the table, the messages and, item by item, the replies that the handler leaves. An insert or
      commit that fails leaves nothing; a lookup that fails leaves the rows, unpublished. */
  lemma CreateRefinesProtocol(cfg: Config, s: State, rid: nat, single: bool, ds: seq<Draft>, fault: Fault,
      w: H.PublishWorld)
    returns (steps: seq<Step>, t: State)
    requires Keyed(s.rows) && Locks(s.rows, s.txs) && CanInsert(s, rid, single, ds)
    ensures Valid(cfg, s, steps) && Run(cfg, s, steps) == t && t.requests == s.requests
    ensures var (rows, results) := FoldCreate(s.rows, ds);
            if BatchFails(fault, results)
            then t.rows == (if fault.LookupFails? then rows else s.rows) && t.published == s.published
            else
              && t.rows == H.AfterPublish(rows, H.RowsOf(results), w)
              && t.published == s.published + (set x | x in H.Written(H.PendingRows(H.RowsOf(results)), w))
              && forall i | 0 <= i < |ds| ::
                   && results[i].notification.Some?
                   && var shown := results[i].notification.value;
                      if results[i].duplicate then
                        && shown.draft.key == ds[i].key && shown.draft.id in rows && rows[shown.draft.id] == shown
                        && Reply(if !single then BatchDuplicate
                                 else if shown.draft.recipient == ds[i].recipient
                                     && shown.draft.channel == ds[i].channel && shown.draft.content == ds[i].content
                                 then Replayed else Mismatch,
                                 ds[i], shown.draft.id) in t.replies
                      else shown.draft == ds[i] && Reply(Created, ds[i], ds[i].id) in t.replies
  {
    FoldKeeps(s.rows, ds);
    assert forall ns :: LogOf(ns, w) == set x | x in H.Written(H.PendingRows(ns), w);
    hide Reaches, FoldCreate, H.RowsOf, H.AfterPublish, LogOf, AnswersAlike, BatchFails, Enabled, Apply;
    if !BatchFails(fault, FoldCreate(s.rows, ds).1) {
      steps, t := AnsweredRuns(cfg, s, rid, single, ds, w);
      forall i | 0 <= i < |ds| {
        AnswerIs(FoldCreate(s.rows, ds).0, FoldCreate(s.rows, ds).1[i], single, ds[i], t.replies);
      }
    } else if fault.LookupFails? {
      steps, t := UnansweredRuns(cfg, s, rid, single, ds);
    } else {
      steps, t := [], s;
      assert Reaches(cfg, s, [], s) by { NothingReaches(cfg, s); }
    }
    ReachesIsRun(cfg, s, steps, t);
  }

  lemma NothingReaches(cfg: Config, s: State)
    ensures Reaches(cfg, s, [], s)
  {
  }

  /** The rows are inserted, and the request goes no further. */
  lemma UnansweredRuns(cfg: Config, s: State, rid: nat, single: bool, ds: seq<Draft>)
    returns (steps: seq<Step>, t: State)
    requires Keyed(s.rows) && CanInsert(s, rid, single, ds)
    ensures Reaches(cfg, s, steps, t) && t.requests == s.requests
    ensures t.rows == FoldCreate(s.rows, ds).0 && t.published == s.published
  {
    assert rid !in s.requests;
    hide Reaches, FoldCreate, H.RowsOf, Inserts, OneDraftPerId, Asking, CanInsert;
    var mid := InsertRuns(cfg, s, rid, single, ds);
    t := AbandonRuns(cfg, mid, rid);
    ReachOn(cfg, s, [Insert(rid, single, ds)], mid, [Abandon(rid)], t);
    steps := [Insert(rid, single, ds)] + [Abandon(rid)];
    assert t.requests == s.requests;
  }

  lemma AnsweredRuns(cfg: Config, s: State, rid: nat, single: bool, ds: seq<Draft>, w: H.PublishWorld)
    returns (steps: seq<Step>, t: State)
    requires Keyed(s.rows) && Locks(s.rows, s.txs) && CanInsert(s, rid, single, ds)
    ensures Reaches(cfg, s, steps, t) && t.requests == s.requests
    ensures var (rows, results) := FoldCreate(s.rows, ds);
            && t.rows == H.AfterPublish(rows, H.RowsOf(results), w)
            && t.published == s.published + LogOf(H.RowsOf(results), w)
            && forall i | 0 <= i < |ds| :: AnswersAlike(rows, results[i], single, ds[i], t.replies)
  {
    var conflicts: set<Draft>;
    steps, t, conflicts := RequestRuns(cfg, s, rid, single, ds, w);
    assert FreshIds(s.rows, ds);
    hide Reaches, FoldCreate, H.RowsOf, H.AfterPublish, LogOf, FreshIds, Keyed, KeyTaken, AnswersAlike, Found, FreshRow,
      CanInsert, Locks, Valid, Run;
    forall i | 0 <= i < |ds|
      ensures AnswersAlike(FoldCreate(s.rows, ds).0, FoldCreate(s.rows, ds).1[i], single, ds[i], t.replies)
    {
      ItemIsAnswered(s.rows, ds, i, single, conflicts, t.replies);
    }
  }

  /** The insert and what follows it. */
  lemma RequestRuns(cfg: Config, s: State, rid: nat, single: bool, ds: seq<Draft>, w: H.PublishWorld)
    returns (steps: seq<Step>, t: State, conflicts: set<Draft>)
    requires Keyed(s.rows) && Locks(s.rows, s.txs) && CanInsert(s, rid, single, ds)
    ensures Reaches(cfg, s, steps, t) && t.requests == s.requests
    ensures var (rows, results) := FoldCreate(s.rows, ds);
            && t.rows == H.AfterPublish(rows, H.RowsOf(results), w)
            && t.published == s.published + LogOf(H.RowsOf(results), w)
            && (forall d | d in conflicts :: KeyTaken(rows, d.key) && Found(rows, single, d) in t.replies)
            && forall i | 0 <= i < |ds| ::
                 if results[i].duplicate then ds[i] in conflicts else Reply(Created, ds[i], ds[i].id) in t.replies
  {
    var ns := H.RowsOf(FoldCreate(s.rows, ds).1);
    assert rid !in s.requests && FreshIds(s.rows, ds);
    NewAreUnlocked(s.rows, s.txs, ds);
    hide Reaches, Inserts, OneDraftPerId, FoldCreate, H.RowsOf, H.AfterPublish, LogOf, FreshIds, Keyed, KeyTaken,
      Locked, Locks, InsertAll, FreshRow, Enabled, Apply, Valid, Run;
    var s1 := InsertRuns(cfg, s, rid, single, ds);
    hide CanInsert;
    conflicts := s1.requests[rid].conflicts;
    var rest, last := AnswerRuns(cfg, s1, rid, ns, w);
    hide Found;
    ReachOn(cfg, s, [Insert(rid, single, ds)], s1, rest, last);
    steps, t := [Insert(rid, single, ds)] + rest, last;
    assert t.requests == s.requests;
  }

  /** A transaction holds only rows that are in the table. */
  lemma NewAreUnlocked(rows: Rows, txs: Txs, ds: seq<Draft>)
    requires Locks(rows, txs) && FreshIds(rows, ds)
    ensures forall d | d in ds :: !Locked(txs, d.id)
  {
    assert forall t | t in txs :: Holds(rows, txs[t]);
  }

  /** What follows the insert: lookups, then publish and queue. */
  lemma AnswerRuns(cfg: Config, s: State, rid: nat, ns: seq<Row>, w: H.PublishWorld)
      returns (steps: seq<Step>, t: State)
    requires Asking(s, rid) && forall d | d in s.requests[rid].added :: !Locked(s.txs, d.id)
    requires Inserts(ns, s.requests[rid].added) && OneDraftPerId(s.requests[rid].added)
    ensures Reaches(cfg, s, steps, t) && t.requests == s.requests - {rid}
    ensures t.rows == H.AfterPublish(s.rows, ns, w) && t.published == s.published + LogOf(ns, w)
    ensures s.replies <= t.replies
    ensures forall d | d in s.requests[rid].conflicts ::
              KeyTaken(s.rows, d.key) && Found(s.rows, s.requests[rid].single, d) in t.replies
  {
    hide Reaches, Inserts, OneDraftPerId, H.AfterPublish, LogOf, KeyTaken;
    var lookups, mid := LookupAll(cfg, s, rid);
    var publish, last := PublishRuns(cfg, mid, rid, ns, w);
    ReachOn(cfg, s, lookups, mid, publish, last);
    steps, t := lookups + publish, last;
  }

  lemma InsertRuns(cfg: Config, s: State, rid: nat, single: bool, ds: seq<Draft>) returns (t: State)
    requires Keyed(s.rows) && CanInsert(s, rid, single, ds)
    ensures Reaches(cfg, s, [Insert(rid, single, ds)], t) && rid in t.requests
    ensures t == s.(rows := t.rows, requests := s.requests[rid := t.requests[rid]], replies := t.replies,
        hist := t.hist)
    ensures t.requests[rid].Inserted? && t.requests[rid].single == single
    ensures forall d | d in t.requests[rid].added :: d in ds
    ensures Asking(t, rid) && t.rows == FoldCreate(s.rows, ds).0
    ensures OneDraftPerId(t.requests[rid].added) && Inserts(H.RowsOf(FoldCreate(s.rows, ds).1), t.requests[rid].added)
    ensures forall i | 0 <= i < |ds| ::
              if FoldCreate(s.rows, ds).1[i].duplicate then ds[i] in t.requests[rid].conflicts
              else Reply(Created, ds[i], ds[i].id) in t.replies
  {
    assert Enabled(cfg, s, Insert(rid, single, ds));
    ReachOne(cfg, s, Insert(rid, single, ds));
    t := Apply(cfg, s, Insert(rid, single, ds));
    hide Enabled, Apply, Reaches;
    InsertSorts(s, rid, single, ds);
  }

  lemma InsertSorts(s: State, rid: nat, single: bool, ds: seq<Draft>)
    requires Keyed(s.rows) && CanInsert(s, rid, single, ds)
    ensures var (rows, results) := FoldCreate(s.rows, ds);
            var t := DoInsert(s, rid, single, ds);
            && Asking(t, rid) && t.rows == rows
            && OneDraftPerId(t.requests[rid].added) && Inserts(H.RowsOf(results), t.requests[rid].added)
            && forall i | 0 <= i < |ds| ::
                 if results[i].duplicate then ds[i] in t.requests[rid].conflicts
                 else Reply(Created, ds[i], ds[i].id) in t.replies
  {
    FoldIsInsertAll(s.rows, ds);
    ConflictsAreHeld(s.rows, ds);
    FoldInserts(s.rows, ds);
    forall i | 0 <= i < |ds| ensures FoldCreate(s.rows, ds).1[i].duplicate <==> ds[i].id !in FoldCreate(s.rows, ds).0 {
      FoldSorts(s.rows, ds, i);
    }
    InsertRecords(s, rid, single, ds);
    hide DoInsert, CanInsert, FoldCreate, InsertAll, H.RowsOf, Inserts, Keyed, KeyTaken, OneDraftPerId;
    var t := DoInsert(s, rid, single, ds);
    assert OneDraftPerId(t.requests[rid].added);
    assert Asking(t, rid);
    assert forall i | 0 <= i < |ds| :: ds[i] in ds;
  }

  lemma InsertRecords(s: State, rid: nat, single: bool, ds: seq<Draft>)
    requires CanInsert(s, rid, single, ds)
    ensures var t, rows := DoInsert(s, rid, single, ds), InsertAll(s.rows, ds);
            && t.rows == rows && rid in t.requests
            && t.requests[rid] == Inserted(single, set d | d in ds && d.id in rows, set d | d in ds && d.id !in rows)
            && forall d | d in ds && d.id in rows :: Reply(Created, d, d.id) in t.replies
  {
  }

  lemma ConflictsAreHeld(rows: Rows, ds: seq<Draft>)
    requires Keyed(rows) && FreshIds(rows, ds)
    ensures forall d | d in ds && d.id !in InsertAll(rows, ds) :: KeyTaken(InsertAll(rows, ds), d.key)
    ensures OneDraftPerId(set d | d in ds && d.id in InsertAll(rows, ds))
  {
    InsertAllEffect(rows, ds);
    hide InsertAll;
    forall d | d in ds && d.id !in InsertAll(rows, ds) ensures KeyTaken(InsertAll(rows, ds), d.key) {
      assert Settled(InsertAll(rows, ds), d);
    }
  }

  /** The new rows of a fold are those of the drafts that made it into the table. */
  lemma FoldInserts(rows: Rows, ds: seq<Draft>)
    requires Keyed(rows) && FreshIds(rows, ds)
    ensures Inserts(H.RowsOf(FoldCreate(rows, ds).1), set d | d in ds && d.id in FoldCreate(rows, ds).0)
  {
    var (t, results) := FoldCreate(rows, ds);
    var ns := H.RowsOf(results);
    forall r | r in ns ensures r == FreshRow(r.draft) && r.draft in ds && r.draft.id in t {
      H.RowsOfHas(results, r);
      var i :| 0 <= i < |results| && !results[i].duplicate && results[i].notification == Some(r);
      FoldSorts(rows, ds, i);
    }
    forall d | d in ds && d.id in t ensures FreshRow(d) in ns {
      var i :| 0 <= i < |ds| && ds[i] == d;
      FoldSorts(rows, ds, i);
      H.RowsOfHas(results, FreshRow(d));
    }
    forall d | d in ds && d.id in t ensures d in DraftsOf(ns) { assert FreshRow(d) in ns; }
  }
}
