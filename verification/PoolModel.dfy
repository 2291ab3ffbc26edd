/** The worker pool under concurrency: fetchers fill three buffers while any number of senders are
    each somewhere between the three selects of next. Every select is one atomic step. */
module PoolModel {
  import opened Domain
  import WorkerPool

  type Job = WorkerPool.Job

  /** One thing per priority. */
  datatype PerLane<T> = PerLane(high: T, normal: T, low: T) {
    function At(lane: Priority): T { match lane case High => high case Normal => normal case Low => low }

    function With(lane: Priority, x: T): PerLane<T> {
      match lane case High => this.(high := x) case Normal => this.(normal := x) case Low => this.(low := x)
    }
  }

  /** Where a sender stands: before its first select (not in next), before the second, before the
      third, processing a job, or gone. AfterFirst means that this call found high empty;
      AfterSecond, that it found high and normal empty at once. */
  datatype Sender = Start | AfterFirst | AfterSecond | Busy(job: Job, lane: Priority) | Stopped

  /** buffer: the three channels; held: the job each fetcher waits to hand over; fetched, taken
      and dropped: every job so far that was read from Kafka, handed to a sender, or lost with a
      fetcher that was shut down. */
  datatype State = State(
    capacity: nat,
    buffer: PerLane<seq<Job>>,
    held: PerLane<Option<Job>>,
    senders: map<nat, Sender>,
    cancelled: bool,
    fetched: multiset<Job>, taken: multiset<Job>, dropped: multiset<Job>)

  /** Which select the sender is at decides what it may receive. */
  datatype Step =
    | Fetch(lane: Priority, job: Job)
    | Put(lane: Priority)
    | Quit(lane: Priority)
    | Receive(sender: nat, lane: Priority, direct: bool)
    | Default(sender: nat)
    | Finish(sender: nat)
    | Shutdown
    | Leave(sender: nat)

  /** The lanes a select waits on. */
  predicate Offers(x: Sender, lane: Priority) {
    match x
    case Start => lane == High
    case AfterFirst => lane == High || lane == Normal
    case AfterSecond => true
    case _ => false
  }

  ghost predicate Enabled(s: State, step: Step) {
    match step
    case Fetch(lane, job) => s.held.At(lane).None? && job.priority == lane
    case Put(lane) => s.held.At(lane).Some? && |s.buffer.At(lane)| < s.capacity
    case Quit(lane) => s.held.At(lane).Some? && s.cancelled
    case Receive(x, lane, direct) =>
      && x in s.senders && Offers(s.senders[x], lane)
      && if direct then s.buffer.At(lane) == [] && s.held.At(lane).Some? else s.buffer.At(lane) != []
    case Default(x) =>
      && x in s.senders
      && ((s.senders[x].Start? && s.buffer.high == [])
          || (s.senders[x].AfterFirst? && s.buffer.high == [] && s.buffer.normal == []))
    case Finish(x) => x in s.senders && s.senders[x].Busy?
    case Shutdown => true
    case Leave(x) => x in s.senders && s.senders[x].AfterSecond? && s.cancelled
  }

  /** A select's default branch is taken only when nothing it offers is ready; Receive takes any
      one ready lane, and directly from a waiting fetcher when the buffer is empty. */
  ghost function Apply(s: State, step: Step): State
    requires Enabled(s, step)
  {
    match step
    case Fetch(lane, job) => s.(held := s.held.With(lane, Some(job)), fetched := s.fetched + multiset{job})
    case Put(lane) =>
      s.(buffer := s.buffer.With(lane, s.buffer.At(lane) + [s.held.At(lane).value]), held := s.held.With(lane, None))
    case Quit(lane) => s.(held := s.held.With(lane, None), dropped := s.dropped + multiset{s.held.At(lane).value})
    case Receive(x, lane, direct) =>
      var job := if direct then s.held.At(lane).value else s.buffer.At(lane)[0];
      s.(buffer := if direct then s.buffer else s.buffer.With(lane, s.buffer.At(lane)[1..]),
         held := if direct then s.held.With(lane, None) else s.held,
         senders := s.senders[x := Busy(job, lane)],
         taken := s.taken + multiset{job})
    case Default(x) => s.(senders := s.senders[x := if s.senders[x].Start? then AfterFirst else AfterSecond])
    case Finish(x) => s.(senders := s.senders[x := Start])
    case Shutdown => s.(cancelled := true)
    case Leave(x) => s.(senders := s.senders[x := Stopped])
  }

  /** A run as the states it passes and the steps between them. */
  ghost predicate IsRun(states: seq<State>, steps: seq<Step>) {
    && |states| == |steps| + 1
    && forall i | 0 <= i < |steps| ::
         Enabled(states[i], steps[i]) && Apply(states[i], steps[i]) == states[i + 1]
  }

  // ----- Bounded priority inversion -----

  predicate PastFast(x: Sender) { x.AfterFirst? || x.AfterSecond? }

  /** The senders that have already found high empty in their current call. */
  ghost function Exposed(s: State): set<nat> { set x | x in s.senders && PastFast(s.senders[x]) }

  /** How many jobs of the run were taken from a lane other than high. */
  ghost function Inversions(steps: seq<Step>): nat {
    if steps == [] then 0
    else Inversions(steps[..|steps| - 1]) + if Overtakes(steps[|steps| - 1]) then 1 else 0
  }

  predicate Overtakes(step: Step) { step.Receive? && step.lane != High }

  /** While high stays ready no further sender gets past its fast path, and each that takes a
      non-high job was past it already. */
  lemma StepSpendsExposure(s: State, step: Step)
    requires Enabled(s, step) && s.buffer.high != []
    ensures Exposed(Apply(s, step)) <= Exposed(s)
    ensures Overtakes(step) ==> step.sender in Exposed(s) && step.sender !in Exposed(Apply(s, step))
  {
  }

  lemma Shrinks(a: set<nat>, b: set<nat>, x: nat)
    requires a <= b
    ensures |a| <= |b| && (x in b && x !in a ==> |a| < |b|)
  {
    assert b == a + (b - a);
    if x in b && x !in a { assert x in b - a; }
  }

  lemma {:induction false} InversionsSpendExposure(states: seq<State>, steps: seq<Step>)
    requires IsRun(states, steps) && forall i | 0 <= i < |states| :: states[i].buffer.high != []
    ensures Inversions(steps) + |Exposed(states[|steps|])| <= |Exposed(states[0])|
  {
    if steps != [] {
      var n := |steps| - 1;
      InversionsSpendExposure(states[..n + 1], steps[..n]);
      assert Enabled(states[n], steps[n]) && Apply(states[n], steps[n]) == states[n + 1];
      StepSpendsExposure(states[n], steps[n]);
      Shrinks(Exposed(states[n + 1]), Exposed(states[n]), if Overtakes(steps[n]) then steps[n].sender else 0);
    }
  }

  lemma {:induction false} InversionsAre(steps: seq<Step>)
    ensures Inversions(steps) == |set i | 0 <= i < |steps| && steps[i].Receive? && steps[i].lane in {Normal, Low}|
  {
    if steps != [] {
      var n := |steps| - 1;
      InversionsAre(steps[..n]);
      var before := set i | 0 <= i < n && steps[..n][i].Receive? && steps[..n][i].lane in {Normal, Low};
      assert (set i | 0 <= i < |steps| && steps[i].Receive? && steps[i].lane in {Normal, Low})
          == before + if Overtakes(steps[n]) then {n} else {};
    }
  }

  /** Bounded inversion: over any stretch in which the high buffer is never empty, however many
      jobs arrive and however the senders interleave between their selects, no more jobs of lower
      priority are taken than there are senders past their fast path when it begins. */
  lemma BoundedInversion(states: seq<State>, steps: seq<Step>)
    requires IsRun(states, steps) && forall i | 0 <= i < |states| :: states[i].buffer.high != []
    ensures Inversions(steps) <= |Exposed(states[0])| <= |states[0].senders|
    ensures |set i | 0 <= i < |steps| && steps[i].Receive? && steps[i].lane in {Normal, Low}|
         <= |set x | x in states[0].senders && (states[0].senders[x].AfterFirst? || states[0].senders[x].AfterSecond?)|
  {
    InversionsAre(steps);
    assert Exposed(states[0]) ==
           set x | x in states[0].senders && (states[0].senders[x].AfterFirst? || states[0].senders[x].AfterSecond?);
    InversionsSpendExposure(states, steps);
    Shrinks(Exposed(states[0]), states[0].senders.Keys, 0);
  }

  // ----- The bound is exact -----

  /** A run that keeps high ready. */
  ghost predicate KeepsHigh(states: seq<State>, steps: seq<Step>) {
    IsRun(states, steps) && forall i | 0 <= i < |states| :: states[i].buffer.high != []
  }

  lemma OneStepOn(states: seq<State>, steps: seq<Step>, step: Step)
    requires KeepsHigh(states, steps) && Enabled(states[|steps|], step)
    requires Apply(states[|steps|], step).buffer.high != []
    ensures KeepsHigh(states + [Apply(states[|steps|], step)], steps + [step])
    ensures Inversions(steps + [step]) == Inversions(steps) + if Overtakes(step) then 1 else 0
  {
    hide Enabled, Apply;
    var states', steps' := states + [Apply(states[|steps|], step)], steps + [step];
    assert steps'[..|steps|] == steps;
    forall i | 0 <= i < |steps'|
        ensures Enabled(states'[i], steps'[i]) && Apply(states'[i], steps'[i]) == states'[i + 1] {
      if i < |steps| { assert Enabled(states[i], steps[i]) && Apply(states[i], steps[i]) == states[i + 1]; }
    }
  }

  const ANY_NORMAL := WorkerPool.Job(Message(0, "", Sms, "", Normal, 0), Normal, 0)

  /** A normal job can be made ready: it is buffered, with its fetcher, or fetched now. */
  lemma NormalReady(states: seq<State>, steps: seq<Step>) returns (states': seq<State>, steps': seq<Step>, direct: bool)
    requires KeepsHigh(states, steps)
    ensures KeepsHigh(states', steps') && |states'| >= |states| && states'[0] == states[0]
    ensures Inversions(steps') == Inversions(steps)
    ensures var t := states'[|steps'|];
            && t.senders == states[|steps|].senders && Exposed(t) == Exposed(states[|steps|])
            && if direct then t.buffer.normal == [] && t.held.normal.Some? else t.buffer.normal != []
  {
    var s := states[|steps|];
    states', steps', direct := states, steps, s.buffer.normal == [];
    if s.buffer.normal == [] && s.held.normal.None? {
      OneStepOn(states, steps, Fetch(Normal, ANY_NORMAL));
      states', steps' := states + [Apply(s, Fetch(Normal, ANY_NORMAL))], steps + [Fetch(Normal, ANY_NORMAL)];
    }
  }

  /** From every state there is a run in which each sender past its fast path takes a lower job while
      high stays ready: the bound is reached. */
  lemma {:induction false} InversionsReached(s: State, k: nat) returns (states: seq<State>, steps: seq<Step>)
    requires s.buffer.high != [] && k <= |Exposed(s)|
    ensures KeepsHigh(states, steps) && states[0] == s && Inversions(steps) == k
    ensures |Exposed(states[|steps|])| == |Exposed(s)| - k
  {
    if k == 0 {
      states, steps := [s], [];
    } else {
      states, steps := InversionsReached(s, k - 1);
      var x :| x in Exposed(states[|steps|]);
      var direct;
      states, steps, direct := NormalReady(states, steps);
      var last, step := states[|steps|], Receive(x, Normal, direct);
      ExposedOvertakes(last, x, direct);
      OneStepOn(states, steps, step);
      states, steps := states + [Apply(last, step)], steps + [step];
    }
  }

  lemma ExposedOvertakes(s: State, x: nat, direct: bool)
    requires s.buffer.high != [] && x in Exposed(s)
    requires if direct then s.buffer.normal == [] && s.held.normal.Some? else s.buffer.normal != []
    ensures Enabled(s, Receive(x, Normal, direct))
    ensures var t := Apply(s, Receive(x, Normal, direct));
            t.buffer.high != [] && |Exposed(t)| == |Exposed(s)| - 1
  {
    assert Exposed(Apply(s, Receive(x, Normal, direct))) == Exposed(s) - {x};
  }

  /** Strict priority is never broken from here while high stays ready, if and only if no sender is
      past its fast path. */
  lemma StrictIff(s: State)
    requires s.buffer.high != []
    ensures (forall states, steps | KeepsHigh(states, steps) && states[0] == s :: Inversions(steps) == 0)
       <==> forall x | x in s.senders :: !s.senders[x].AfterFirst? && !s.senders[x].AfterSecond?
  {
    assert Exposed(s) == {} <==> forall x | x in s.senders :: !PastFast(s.senders[x]) by {
      if x :| x in s.senders && PastFast(s.senders[x]) { assert x in Exposed(s); }
    }
    forall states, steps | KeepsHigh(states, steps) && states[0] == s ensures Inversions(steps) <= |Exposed(s)| {
      BoundedInversion(states, steps);
    }
    if Exposed(s) != {} {
      var states, steps := InversionsReached(s, |Exposed(s)|);
      assert |Exposed(s)| > 0;
    }
  }

  // ----- The sequential next is one of these runs -----

  /** Which buffer loses its head. */
  lemma ServesHead(cancelled: bool, b: PerLane<seq<Job>>, j: Job, high: seq<Job>, normal: seq<Job>, low: seq<Job>)
    requires WorkerPool.Serves(cancelled, b.high, b.normal, b.low, Some(j), high, normal, low)
    ensures if b.high != [] then j == b.high[0] && high == b.high[1..] && normal == b.normal && low == b.low
            else if b.normal != [] then j == b.normal[0] && high == [] && normal == b.normal[1..] && low == b.low
            else b.low != [] && j == b.low[0] && high == normal == [] && low == b.low[1..]
  {
    var all, rest := b.high + b.normal + b.low, high + normal + low;
    assert all[0] == j && all[1..] == rest;
    var n := |b.high| + |b.normal|;
    assert b.low == all[n..];
    if n > 0 { assert low == rest[n - 1..]; }
  }

  /** The call has ended: the job is the sender's, the buffers are these, and the rest is as it was. */
  ghost predicate Ended(s: State, t: State, x: nat, j: Option<Job>, after: PerLane<seq<Job>>) {
    && x in s.senders && x in t.senders
    && t.buffer == after && t.held == s.held && t.dropped == s.dropped && t.fetched == s.fetched
    && t.taken == s.taken + (if j.Some? then multiset{j.value} else multiset{})
    && t.senders == s.senders[x := t.senders[x]]
    && if j.Some? then t.senders[x].Busy? && t.senders[x].job == j.value else t.senders[x].Stopped?
  }

  /** The select that ends the call. */
  function EndOf(b: PerLane<seq<Job>>, x: nat, j: Option<Job>): Step {
    if j.None? then Leave(x)
    else Receive(x, if b.high != [] then High else if b.normal != [] then Normal else Low, false)
  }

  /** Which of the three it is. */
  function EndingSelect(b: PerLane<seq<Job>>, j: Option<Job>): Sender {
    if j.Some? && b.high != [] then Start else if j.Some? && b.normal != [] then AfterFirst else AfterSecond
  }

  lemma CallEnds(s: State, s': State, x: nat, j: Option<Job>, after: PerLane<seq<Job>>)
    requires x in s.senders && s' == s.(senders := s.senders[x := EndingSelect(s.buffer, j)])
    requires WorkerPool.Serves(s.cancelled, s.buffer.high, s.buffer.normal, s.buffer.low, j, after.high, after.normal,
        after.low)
    ensures Enabled(s', EndOf(s.buffer, x, j)) && Ended(s, Apply(s', EndOf(s.buffer, x, j)), x, j, after)
  {
    if j.Some? { ServesHead(s.cancelled, s.buffer, j.value, after.high, after.normal, after.low); }
    hide WorkerPool.Serves;
  }

  /** A call to next with nobody else sending or receiving goes through these selects, takes the same
      job and leaves the same buffers. */
  lemma NextIsRun(s: State, x: nat, j: Option<Job>, after: PerLane<seq<Job>>)
      returns (states: seq<State>, steps: seq<Step>)
    requires x in s.senders && s.senders[x].Start?
    requires WorkerPool.Serves(s.cancelled, s.buffer.high, s.buffer.normal, s.buffer.low, j, after.high, after.normal,
        after.low)
    ensures IsRun(states, steps) && states[0] == s && Ended(s, states[|steps|], x, j, after)
  {
    var last := EndOf(s.buffer, x, j);
    if EndingSelect(s.buffer, j).Start? {
      assert s.senders[x := Start] == s.senders;
      CallEnds(s, s, x, j, after);
      hide Enabled, Apply, Ended;
      states, steps := [s, Apply(s, last)], [last];
    } else {
      var s1 := Apply(s, Default(x));
      assert Enabled(s, Default(x));
      if EndingSelect(s.buffer, j).AfterFirst? {
        CallEnds(s, s1, x, j, after);
        hide Enabled, Apply, Ended;
        states, steps := [s, s1, Apply(s1, last)], [Default(x), last];
      } else {
        var s2 := Apply(s1, Default(x));
        assert Enabled(s1, Default(x)) && s2 == s.(senders := s.senders[x := AfterSecond]);
        CallEnds(s, s2, x, j, after);
        hide Enabled, Apply, Ended;
        states, steps := [s, s1, s2, Apply(s2, last)], [Default(x), Default(x), last];
      }
    }
  }

  // ----- A lower lane is served only after the higher ones were seen empty -----

  /** The run index at which the sender's current call to next began. */
  ghost function CallStart(states: seq<State>, x: nat, i: nat): (b: nat)
    requires i < |states|
    ensures b <= i
  {
    if i > 0 && x in states[i].senders && PastFast(states[i].senders[x]) then CallStart(states, x, i - 1) else i
  }

  /** In the current call, high was empty at some moment; past the second select, high and normal at once. */
  ghost predicate Saw(states: seq<State>, x: nat, i: nat)
    requires i < |states|
  {
    x in states[i].senders ==>
      && (PastFast(states[i].senders[x]) ==>
            exists k :: CallStart(states, x, i) <= k <= i && states[k].buffer.high == [])
      && (states[i].senders[x].AfterSecond? ==>
            exists k ::
              CallStart(states, x, i) <= k <= i && states[k].buffer.high == [] && states[k].buffer.normal == [])
  }

  lemma {:induction false} SendersSaw(states: seq<State>, steps: seq<Step>, x: nat, i: nat)
    requires IsRun(states, steps) && i < |states|
    requires x in states[0].senders ==> !PastFast(states[0].senders[x])
    ensures Saw(states, x, i)
  {
    if i > 0 {
      SendersSaw(states, steps, x, i - 1);
      var s, t, step := states[i - 1], states[i], steps[i - 1];
      assert Enabled(s, step) && Apply(s, step) == t;
      if x in t.senders && PastFast(t.senders[x]) {
        assert CallStart(states, x, i) == CallStart(states, x, i - 1);
        if step == Default(x) {
          assert s.buffer.high == [];
        } else {
          assert t.senders[x] == s.senders[x];
        }
      }
    }
  }

  /** A normal job is handed out only when high was seen empty during that very call to next, and
      a low job only when high and normal were seen empty together. */
  lemma LowerLanesWait(states: seq<State>, steps: seq<Step>, i: nat)
    requires IsRun(states, steps) && i < |steps| && steps[i].Receive?
    requires forall x | x in states[0].senders :: !PastFast(states[0].senders[x])
    ensures steps[i].lane == Normal ==>
      exists k :: CallStart(states, steps[i].sender, i) <= k <= i && states[k].buffer.high == []
    ensures steps[i].lane == Low ==>
      exists k :: CallStart(states, steps[i].sender, i) <= k <= i
        && states[k].buffer.high == [] && states[k].buffer.normal == []
  {
    SendersSaw(states, steps, steps[i].sender, i);
    assert Enabled(states[i], steps[i]);
  }

  // ----- Conservation -----

  /** The jobs of one lane on their way: with its fetcher or in its buffer. */
  function Load(h: Option<Job>, buffer: seq<Job>): multiset<Job> {
    (if h.Some? then multiset{h.value} else multiset{}) + multiset(buffer)
  }

  function LaneLoad(s: State, lane: Priority): multiset<Job> { Load(s.held.At(lane), s.buffer.At(lane)) }

  function InLanes(s: State): multiset<Job> { LaneLoad(s, High) + LaneLoad(s, Normal) + LaneLoad(s, Low) }

  /** Every fetched job is with a fetcher, in a buffer, handed to a sender or lost at a shutdown. */
  ghost predicate Conserved(s: State) {
    s.fetched == InLanes(s) + s.taken + s.dropped
  }

  lemma LoadMoves(buffer: seq<Job>, job: Job)
    ensures Load(None, buffer + [job]) == Load(Some(job), buffer) == Load(None, buffer) + multiset{job}
  {
  }

  lemma LoadServes(h: Option<Job>, buffer: seq<Job>)
    requires buffer != []
    ensures Load(h, buffer) == Load(h, buffer[1..]) + multiset{buffer[0]}
  {
    assert buffer == [buffer[0]] + buffer[1..];
  }

  /** What a step does to the load of each lane. */
  lemma StepMovesLoad(s: State, step: Step, lane: Priority)
    requires Enabled(s, step)
    ensures var t := Apply(s, step);
            && (step.Fetch? && step.lane == lane ==> LaneLoad(t, lane) == LaneLoad(s, lane) + multiset{step.job})
            && (step.Quit? && step.lane == lane ==>
                  LaneLoad(s, lane) == LaneLoad(t, lane) + multiset{s.held.At(lane).value})
            && (step.Receive? && step.lane == lane ==>
                  LaneLoad(s, lane) == LaneLoad(t, lane) + multiset{t.senders[step.sender].job})
            && (!(step.Fetch? || step.Quit? || step.Receive?) || step.lane != lane ==>
                  LaneLoad(t, lane) == LaneLoad(s, lane))
  {
    hide Load;
    match step
    case Fetch(_, job) => LoadMoves(s.buffer.At(lane), job);
    case Put(l) => LoadMoves(s.buffer.At(l), s.held.At(l).value);
    case Quit(l) => LoadMoves(s.buffer.At(l), s.held.At(l).value);
    case Receive(_, l, direct) =>
      if direct { LoadMoves(s.buffer.At(l), s.held.At(l).value); } else { LoadServes(s.held.At(l), s.buffer.At(l)); }
    case _ =>
  }

  /** The jobs that a step takes away from the lanes. */
  function Gone(s: State, step: Step): multiset<Job>
    requires Enabled(s, step)
  {
    match step
    case Quit(lane) => multiset{s.held.At(lane).value}
    case Receive(_, lane, direct) => multiset{if direct then s.held.At(lane).value else s.buffer.At(lane)[0]}
    case _ => multiset{}
  }

  function Come(step: Step): multiset<Job> { if step.Fetch? then multiset{step.job} else multiset{} }

  lemma OneLane(s: State, t: State, lane: Priority, come: multiset<Job>, gone: multiset<Job>)
    requires LaneLoad(t, lane) + gone == LaneLoad(s, lane) + come
    requires forall l | l != lane :: LaneLoad(t, l) == LaneLoad(s, l)
    ensures InLanes(t) + gone == InLanes(s) + come
  {
    hide LaneLoad;
    forall j: Job ensures (InLanes(t) + gone)[j] == (InLanes(s) + come)[j] {
      assert (LaneLoad(t, lane) + gone)[j] == (LaneLoad(s, lane) + come)[j];
      assert lane == High || lane == Normal || lane == Low;
    }
  }

  /** The total changes only by what a step brings and takes away. */
  lemma InLanesMoves(s: State, step: Step)
    requires Enabled(s, step)
    ensures InLanes(Apply(s, step)) + Gone(s, step) == InLanes(s) + Come(step)
  {
    var t := Apply(s, step);
    var lane := if step.Fetch? || step.Quit? || step.Receive? then step.lane else High;
    forall l: Priority ensures l != lane ==> LaneLoad(t, l) == LaneLoad(s, l) { StepMovesLoad(s, step, l); }
    StepMovesLoad(s, step, lane);
    hide LaneLoad, InLanes;
    OneLane(s, t, lane, Come(step), Gone(s, step));
  }

  lemma StepConserves(s: State, step: Step)
    requires Conserved(s) && Enabled(s, step)
    ensures Conserved(Apply(s, step))
  {
    InLanesMoves(s, step);
    StepBooks(s, step);
    var t := Apply(s, step);
    hide InLanes, Enabled, Apply, Gone, Come;
    BooksBalance(s, t, Come(step), Gone(s, step));
  }

  lemma BooksBalance(s: State, t: State, come: multiset<Job>, gone: multiset<Job>)
    requires Conserved(s) && t.fetched == s.fetched + come
    requires InLanes(t) + gone == InLanes(s) + come && t.taken + t.dropped == s.taken + s.dropped + gone
    ensures Conserved(t)
  {
    hide InLanes;
    forall j: Job ensures t.fetched[j] == (InLanes(t) + t.taken + t.dropped)[j] {
      assert (InLanes(t) + gone)[j] == (InLanes(s) + come)[j];
      assert (t.taken + t.dropped)[j] == (s.taken + s.dropped + gone)[j];
    }
  }

  /** What a step brings is booked as fetched, and what it takes away as taken or dropped. */
  lemma StepBooks(s: State, step: Step)
    requires Enabled(s, step)
    ensures var t := Apply(s, step);
            && t.fetched == s.fetched + Come(step)
            && t.taken + t.dropped == s.taken + s.dropped + Gone(s, step)
  {
  }

  lemma {:induction false} RunConserves(states: seq<State>, steps: seq<Step>, i: nat)
    requires IsRun(states, steps) && Conserved(states[0]) && i < |states|
    ensures Conserved(states[i])
  {
    if i > 0 {
      RunConserves(states, steps, i - 1);
      assert Enabled(states[i - 1], steps[i - 1]) && Apply(states[i - 1], steps[i - 1]) == states[i];
      StepConserves(states[i - 1], steps[i - 1]);
    }
  }
}
