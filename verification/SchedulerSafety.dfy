/** What every reachable scheduler state satisfies. */
module SchedulerSafety {
  import opened Scheduler

  /** Quantities summed over flows and runs: a flow's slots and run counts, permits,
      the places that hold an id, and the steps left to do. */
  datatype Metric = Slots(f: Flow) | Counts(f: Flow) | Permits | Holds(id: Id) | Effort(c: Config)

  /** What one run task adds to a metric. */
  function RunWeight(m: Metric, q: RunTask): nat {
    match m
    case Slots(f) => if q.flow == f && q.settle == 0 then 1 else 0
    case Counts(f) => if q.flow == f && q.settle < 2 then 1 else 0
    case Permits => if q.permit then 1 else 0
    case Holds(id) => if q.id == id && q.settle < 3 then 1 else 0
    case Effort(_) => (if q.task.Live? then 1 else 0) + (if q.settle < 3 then 3 - q.settle else 0)
                      + (if q.permit then 1 else 0) + |q.guards|
  }

  /** What flow number f adds to a metric. */
  function FlowWeight(m: Metric, f: Flow, fl: FlowState): nat {
    match m
    case Slots(_) => 0
    case Counts(_) => 0
    case Permits => HandPermit(fl.worker)
    case Holds(id) => FlowHolds(fl, id)
    case Effort(c) => if f < |c.members| then FlowEffort(|c.members[f]|, fl) else 0
  }

  function HandPermit(w: Worker): nat {
    if w.Granted? || w.Begun? || w.Committed? then 1 else 0
  }

  /** How often an id sits inside a flow, before it is settled or handed to a run. */
  function FlowHolds(fl: FlowState, id: Id): nat {
    multiset(fl.queue)[id] + (if fl.accept.Registered? && fl.accept.id == id then 1 else 0) + WorkerHolds(fl.worker, id)
  }

  function WorkerHolds(w: Worker, id: Id): nat {
    match w
    case Ready => 0
    case Closing => 0
    case Exited => 0
    case Abandoning(job, stage) => if stage < 2 && job == id then 1 else 0
    case Draining(left, _) => multiset(left)[id]
    case _ => if w.job == id then 1 else 0
  }

  /** An upper bound on the steps a flow with n members still causes by itself. */
  function FlowEffort(n: nat, fl: FlowState): nat {
    |fl.queue| * JobEffort(n) + AcceptEffort(n, fl.accept) + |fl.guards| + WorkerEffort(n, fl.worker)
  }

  function JobEffort(n: nat): nat { 12 + 3 * n }

  function AcceptEffort(n: nat, a: Accept): nat {
    match a
    case NoAccept => 0
    case Reserved => JobEffort(n) + 3
    case Counted(_) => JobEffort(n) + 2
    case Registered(_) => JobEffort(n) + 1
  }

  function WorkerEffort(n: nat, w: Worker): nat {
    match w
    case Ready => 3
    case InHand(_) => 14 + 3 * n
    case Locking(_, at, waiting) => 13 + 3 * (if at < n then n - at else 0) - (if waiting then 1 else 0)
    case Parked(_) => 12
    case Granted(_) => 11
    case Begun(_) => 10
    case Committed(_) => 9
    case Abandoning(_, stage) => if stage < 2 then 5 - stage else 3
    case Closing => 2
    case Draining(left, released) => 1 + 2 * |left| - (if released then 1 else 0)
    case Exited => 0
  }

  function RunTotal(m: Metric, runs: seq<RunTask>): nat {
    if runs == [] then 0 else RunTotal(m, runs[..|runs| - 1]) + RunWeight(m, runs[|runs| - 1])
  }

  lemma {:induction false} RunTotalUpdate(m: Metric, runs: seq<RunTask>, r: nat, q: RunTask)
    requires r < |runs|
    ensures RunTotal(m, runs[r := q]) == RunTotal(m, runs) - RunWeight(m, runs[r]) + RunWeight(m, q)
    ensures RunWeight(m, runs[r]) <= RunTotal(m, runs)
  {
    var n := |runs| - 1;
    if r == n {
      assert runs[r := q][..n] == runs[..n];
    } else {
      RunTotalUpdate(m, runs[..n], r, q);
      assert runs[r := q][..n] == runs[..n][r := q];
    }
  }

  lemma RunTotalAppend(m: Metric, runs: seq<RunTask>, q: RunTask)
    ensures RunTotal(m, runs + [q]) == RunTotal(m, runs) + RunWeight(m, q)
  {
    assert (runs + [q])[..|runs|] == runs;
  }

  function FlowTotal(m: Metric, flows: seq<FlowState>): nat {
    if flows == [] then 0
    else FlowTotal(m, flows[..|flows| - 1]) + FlowWeight(m, |flows| - 1, flows[|flows| - 1])
  }

  lemma {:induction false} FlowTotalUpdate(m: Metric, flows: seq<FlowState>, f: Flow, fl: FlowState)
    requires f < |flows|
    ensures FlowTotal(m, flows[f := fl]) == FlowTotal(m, flows) - FlowWeight(m, f, flows[f]) + FlowWeight(m, f, fl)
    ensures FlowWeight(m, f, flows[f]) <= FlowTotal(m, flows)
  {
    var n := |flows| - 1;
    if f == n {
      assert flows[f := fl][..n] == flows[..n];
    } else {
      FlowTotalUpdate(m, flows[..n], f, fl);
      assert flows[f := fl][..n] == flows[..n][f := fl];
    }
  }

  /** Triggers of this flow that are accepted, have not given their slot back and have no run yet. */
  function Waiting(fl: FlowState): nat {
    |fl.queue| + (if fl.accept.Counted? || fl.accept.Registered? then 1 else 0) + InWorker(fl.worker)
  }

  function InWorker(w: Worker): nat {
    match w
    case Ready => 0
    case Closing => 0
    case Exited => 0
    case Abandoning(_, stage) => if stage == 0 then 1 else 0
    case Draining(left, released) => if released && left != [] then |left| - 1 else |left|
    case _ => 1
  }

  ghost predicate Counters(c: Config, s: Sys) {
    && (forall f :: 0 <= f < |s.flows| ==> FlowCounters(s.flows[f], f, s.runs))
    && s.free + RunTotal(Permits, s.runs) + FlowTotal(Permits, s.flows) == c.cap
  }

  ghost predicate FlowCounters(fl: FlowState, f: Flow, runs: seq<RunTask>) {
    && fl.outstanding == Waiting(fl) + RunTotal(Slots(f), runs)
    && fl.running == RunTotal(Counts(f), runs) + (if fl.worker.Committed? then 1 else 0)
  }

  /** One flow's gate, queue bound and order of service. */
  ghost predicate FlowLocal(fl: FlowState) {
    && |fl.queue| + (if fl.accept.NoAccept? then 0 else 1) <= QUEUE_CAP
    && (fl.open <==> !fl.worker.Draining? && !fl.worker.Exited?)
    && (!fl.open ==> fl.queue == [] && fl.accept.NoAccept?)
    && fl.sent == fl.taken + fl.queue
    && (match fl.worker
        case Ready => fl.taken == fl.started && fl.guards == {}
        case Closing => fl.started <= fl.taken && fl.guards == {}
        case Draining(left, released) => fl.started <= fl.taken && fl.guards == {} && (released ==> left != []) && |left| <= QUEUE_CAP
        case Exited => fl.started <= fl.taken && fl.guards == {}
        case InHand(job) => fl.taken == fl.started + [job] && fl.guards == {}
        case w => fl.taken == fl.started + [w.job])
  }

  ghost predicate Local(s: Sys) {
    forall f :: 0 <= f < |s.flows| ==> FlowLocal(s.flows[f])
  }

  predicate IsExclusive(c: Config, a: Agent) { a in c.pool && c.pool[a].Exclusive? }

  predicate HolderExists(s: Sys, h: Holder) {
    match h case ByWorker(f) => f < |s.flows| case ByRun(r) => r < |s.runs|
  }

  /** The recorded holder of a write lock is exactly the worker or run whose guards contain it. */
  ghost predicate Locks(c: Config, s: Sys) {
    && (forall a :: a in s.locked ==> IsExclusive(c, a) && HolderExists(s, s.locked[a]))
    && (forall f, a :: 0 <= f < |s.flows| && IsExclusive(c, a) ==>
          (a in s.flows[f].guards <==> a in s.locked && s.locked[a] == ByWorker(f)))
    && (forall r, a :: 0 <= r < |s.runs| && IsExclusive(c, a) ==>
          (a in s.runs[r].guards <==> a in s.locked && s.locked[a] == ByRun(r)))
  }

  /** A worker inside acquire holds only members it has already passed. */
  ghost predicate FlowPassed(ms: seq<Agent>, fl: FlowState) {
    fl.worker.Locking? ==>
      fl.worker.at <= |ms| && (fl.worker.waiting ==> fl.worker.at < |ms|)
      && forall a :: a in fl.guards ==> a in ms[..fl.worker.at]
  }

  ghost predicate Passed(c: Config, s: Sys) {
    && |s.flows| == |c.members|
    && (forall f :: 0 <= f < |s.flows| ==> FlowPassed(c.members[f], s.flows[f]))
    && (forall r :: 0 <= r < |s.runs| ==> s.runs[r].flow < |s.flows|)
  }

  predicate WaitsFor(c: Config, s: Sys, f: Flow, a: Agent)
    requires f < |s.flows|
  {
    Wants(c, s, f) && s.flows[f].worker.waiting && Wanted(c, s, f) == a && IsExclusive(c, a)
  }

  predicate Distinct(q: seq<Flow>) { forall i, j :: 0 <= i < j < |q| ==> q[i] != q[j] }

  ghost predicate Waits(c: Config, s: Sys) {
    && (forall a :: Distinct(Waiters(s, a)))
    && (forall a, f :: f in Waiters(s, a) ==> f < |s.flows| && WaitsFor(c, s, f, a))
    && (forall f :: 0 <= f < |s.flows| && s.flows[f].worker.Locking? && s.flows[f].worker.waiting ==>
          Wants(c, s, f) && IsExclusive(c, Wanted(c, s, f)) && f in Waiters(s, Wanted(c, s, f)))
  }

  /** In how many places an id is: inside flows, with runs, in the settlement log. */
  function Places(s: Sys, id: Id): nat {
    FlowTotal(Holds(id), s.flows) + RunTotal(Holds(id), s.runs) + multiset(s.settled)[id]
  }

  /** Every registered id is in exactly one place. */
  ghost predicate Conserved(s: Sys) {
    forall id: Id :: Places(s, id) == if id < |s.hub| then 1 else 0
  }

  /** The ids of a flow's runs, in the order they were spawned. */
  function Spawned(f: Flow, runs: seq<RunTask>): seq<Id> {
    if runs == [] then []
    else
      var q := runs[|runs| - 1];
      Spawned(f, runs[..|runs| - 1]) + (if q.flow == f then [q.id] else [])
  }

  /** A run gives its permit and guards back after settling, unless it was dropped. */
  predicate RunLocal(q: RunTask) {
    (q.task.Live? ==> q.settle == 0) && q.settle <= 3 && (q.permit || q.task.Dropped? || q.settle == 3)
  }

  predicate HomeIs(home: seq<Flow>, id: Id, f: Flow) { id < |home| && home[id] == f }

  ghost predicate FlowHome(home: seq<Flow>, f: Flow, fl: FlowState) {
    && (forall id: Id :: FlowHolds(fl, id) > 0 ==> HomeIs(home, id, f))
    && (forall id: Id :: id in fl.sent ==> HomeIs(home, id, f))
  }

  /** Ids stay with the flow they were admitted to, and runs start in the order recorded. */
  ghost predicate Homes(s: Sys) {
    && |s.home| == |s.hub|
    && (forall f :: 0 <= f < |s.flows| ==> FlowHome(s.home, f, s.flows[f]))
    && (forall r :: 0 <= r < |s.runs| ==> RunLocal(s.runs[r]) && HomeIs(s.home, s.runs[r].id, s.runs[r].flow))
    && (forall f :: 0 <= f < |s.flows| ==> Spawned(f, s.runs) == s.flows[f].started)
  }

  predicate Visible(s: Sys, id: Id) { id < |s.hub| <= id + HISTORY_CAP }

  /** Those are the newest HISTORY_CAP of all there were: one more pushes out exactly the oldest of a full history. */
  lemma VisibleAreNewest(s: Sys, status: Status, id: Id)
    requires id < |s.hub|
    ensures var n := s.(hub := s.hub + [status]);
      && (|s.hub| <= HISTORY_CAP ==> Visible(s, id))
      && Visible(n, |s.hub|)
      && (Visible(n, id) <==> Visible(s, id) && id + HISTORY_CAP != |s.hub|)
  {
  }

  function StatusOf(s: Sys, id: Id): Status
    requires id < |s.hub|
  {
    if id in s.settled then Terminal else if id in s.begun then Running
    else if s.hub[id].Queued? then s.hub[id] else Queued(0)
  }

  /** A record still in the history says exactly what happened to its trigger. */
  ghost predicate Recorded(s: Sys) {
    && (forall id :: id in s.begun ==> id < |s.hub|)
    && (forall id :: id in s.settled ==> id < |s.hub|)
    && (forall id :: 0 <= id < |s.hub| && Visible(s, id) ==> s.hub[id] == StatusOf(s, id))
  }

  ghost predicate Inv(c: Config, s: Sys) {
    && Counters(c, s) && Local(s) && Locks(c, s) && Passed(c, s) && Waits(c, s)
    && Conserved(s) && Recorded(s) && Homes(s)
  }

  lemma FlowLocalStep(c: Config, s: Sys, l: Label)
    requires FlowLabel(l) && l.f < |s.flows| == |c.members| && FlowEnabled(c, s, l)
    requires FlowLocal(s.flows[l.f])
    ensures FlowLocal(FlowAfter(c, s, l))
  {
  }

  lemma LocalStep(c: Config, s: Sys, l: Label)
    requires |s.flows| == |c.members| && Local(s) && Enabled(c, s, l)
    ensures Local(Next(c, s, l))
  {
    var t := Next(c, s, l);
    if FlowLabel(l) {
      FlowLocalStep(c, s, l);
      assert t.flows == s.flows[l.f := FlowAfter(c, s, l)];
    } else if l.Shutdown? {
    } else {
      forall f | 0 <= f < |t.flows| ensures FlowLocal(t.flows[f]) { assert FlowLocal(s.flows[f]); }
    }
  }

  lemma FlowPassedStep(c: Config, s: Sys, l: Label)
    requires FlowLabel(l) && l.f < |s.flows| == |c.members| && FlowEnabled(c, s, l)
    requires FlowLocal(s.flows[l.f]) && FlowPassed(c.members[l.f], s.flows[l.f])
    ensures FlowPassed(c.members[l.f], FlowAfter(c, s, l))
  {
    var fl, gl, ms := s.flows[l.f], FlowAfter(c, s, l), c.members[l.f];
    if Wants(c, s, l.f) && gl.worker.Locking? && gl.worker.at == fl.worker.at + 1 {
      assert ms[..gl.worker.at] == ms[..fl.worker.at] + [ms[fl.worker.at]];
    }
  }

  lemma PassedStep(c: Config, s: Sys, l: Label)
    requires Local(s) && Passed(c, s) && Enabled(c, s, l)
    ensures Passed(c, Next(c, s, l))
  {
    var t := Next(c, s, l);
    if FlowLabel(l) {
      FlowPassedStep(c, s, l);
      assert t.flows == s.flows[l.f := FlowAfter(c, s, l)];
    } else if l.Shutdown? {
    } else {
      forall f | 0 <= f < |t.flows| ensures FlowPassed(c.members[f], t.flows[f]) {
        assert FlowPassed(c.members[f], s.flows[f]);
      }
    }
  }

  /** A flow step moves a slot between the places that count it, or hands it to the run it spawns. */
  lemma FlowSlotsStep(c: Config, s: Sys, l: Label)
    requires FlowLabel(l) && l.f < |s.flows| == |c.members| && FlowEnabled(c, s, l)
    requires FlowLocal(s.flows[l.f]) && Waiting(s.flows[l.f]) <= s.flows[l.f].outstanding
    ensures FlowAfter(c, s, l).outstanding - Waiting(FlowAfter(c, s, l))
         == s.flows[l.f].outstanding - Waiting(s.flows[l.f]) + (if l.Spawn? then 1 else 0)
  {
  }

  lemma FlowRunningStep(c: Config, s: Sys, l: Label)
    requires FlowLabel(l) && l.f < |s.flows| == |c.members| && FlowEnabled(c, s, l)
    ensures var fl, gl := s.flows[l.f], FlowAfter(c, s, l);
      && gl.running - (if gl.worker.Committed? then 1 else 0)
         == fl.running - (if fl.worker.Committed? then 1 else 0) + (if l.Spawn? then 1 else 0)
      && HandPermit(gl.worker) + (if l.Spawn? then 1 else 0) == HandPermit(fl.worker) + (if l.TakePermit? then 1 else 0)
  {
  }

  /** Counters survive a change of one flow record that balances with an optional new run. */
  lemma PutCounters(c: Config, s: Sys, t: Sys, f: Flow, gl: FlowState, spawn: bool, take: bool, q: RunTask)
    requires Counters(c, s) && f < |s.flows| && t.flows == s.flows[f := gl]
    requires q.flow == f && q.settle == 0 && q.permit && t.runs == if spawn then s.runs + [q] else s.runs
    requires take ==> s.free > 0
    requires t.free == if take then s.free - 1 else s.free
    requires var k := if spawn then 1 else 0; var fl := s.flows[f];
      && gl.outstanding - Waiting(gl) == fl.outstanding - Waiting(fl) + k
      && gl.running - (if gl.worker.Committed? then 1 else 0) == fl.running - (if fl.worker.Committed? then 1 else 0) + k
      && HandPermit(gl.worker) + k == HandPermit(fl.worker) + (if take then 1 else 0)
    ensures Counters(c, t)
  {
    PutPermits(s, t, f, gl, spawn, q);
    forall g | 0 <= g < |t.flows| ensures FlowCounters(t.flows[g], g, t.runs) {
      assert FlowCounters(s.flows[g], g, s.runs);
      AppendCounts(s.runs, spawn, q, g);
    }
  }

  lemma PutPermits(s: Sys, t: Sys, f: Flow, gl: FlowState, spawn: bool, q: RunTask)
    requires f < |s.flows| && t.flows == s.flows[f := gl]
    requires q.permit && t.runs == if spawn then s.runs + [q] else s.runs
    ensures RunTotal(Permits, t.runs) == RunTotal(Permits, s.runs) + (if spawn then 1 else 0)
    ensures FlowTotal(Permits, t.flows) == FlowTotal(Permits, s.flows) - HandPermit(s.flows[f].worker) + HandPermit(gl.worker)
  {
    FlowTotalUpdate(Permits, s.flows, f, gl);
    RunTotalAppend(Permits, s.runs, q);
  }

  lemma AppendCounts(runs: seq<RunTask>, spawn: bool, q: RunTask, g: Flow)
    requires q.settle == 0
    ensures var k := if spawn && q.flow == g then 1 else 0; var after := if spawn then runs + [q] else runs;
      RunTotal(Slots(g), after) == RunTotal(Slots(g), runs) + k && RunTotal(Counts(g), after) == RunTotal(Counts(g), runs) + k
  {
    RunTotalAppend(Slots(g), runs, q);
    RunTotalAppend(Counts(g), runs, q);
  }

  lemma FlowCountersStep(c: Config, s: Sys, l: Label)
    requires FlowLabel(l) && l.f < |s.flows| == |c.members| && FlowEnabled(c, s, l)
    requires FlowLocal(s.flows[l.f]) && Counters(c, s)
    ensures Counters(c, FlowNext(c, s, l))
  {
    assert FlowCounters(s.flows[l.f], l.f, s.runs);
    FlowSlotsStep(c, s, l);
    FlowRunningStep(c, s, l);
    var q := RunTask(l.f, if l.Spawn? then s.flows[l.f].worker.job else 0, Live, 0, true, s.flows[l.f].guards);
    PutCounters(c, s, FlowNext(c, s, l), l.f, FlowAfter(c, s, l), l.Spawn?, l.TakePermit?, q);
  }

  lemma CountersStep(c: Config, s: Sys, l: Label)
    requires Local(s) && Passed(c, s) && Counters(c, s) && Enabled(c, s, l)
    ensures Counters(c, Next(c, s, l))
  {
    if FlowLabel(l) {
      FlowCountersStep(c, s, l);
    } else if !l.Shutdown? {
      RunCountersStep(c, s, l);
    }
  }

  lemma RunCountersStep(c: Config, s: Sys, l: Label)
    requires !FlowLabel(l) && !l.Shutdown? && l.r < |s.runs| && RunEnabled(s, l)
    requires Passed(c, s) && Counters(c, s)
    ensures Counters(c, RunNext(s, l))
  {
    var t := RunNext(s, l);
    var q := s.runs[l.r];
    RunTotalUpdate(Permits, s.runs, l.r, RunAfter(q, l));
    FlowTotalUpdate(Permits, s.flows, q.flow, t.flows[q.flow]);
    assert t.flows == s.flows[q.flow := t.flows[q.flow]];
    forall f | 0 <= f < |t.flows| ensures FlowCounters(t.flows[f], f, t.runs) {
      assert FlowCounters(s.flows[f], f, s.runs);
      RunFlowCounters(s, l, f);
    }
  }

  lemma RunFlowCounters(s: Sys, l: Label, f: Flow)
    requires !FlowLabel(l) && !l.Shutdown? && l.r < |s.runs| && RunEnabled(s, l)
    requires f < |s.flows| && FlowCounters(s.flows[f], f, s.runs)
    ensures FlowCounters(RunNext(s, l).flows[f], f, RunNext(s, l).runs)
  {
    RunTotalUpdate(Slots(f), s.runs, l.r, RunAfter(s.runs[l.r], l));
    RunTotalUpdate(Counts(f), s.runs, l.r, RunAfter(s.runs[l.r], l));
  }

  /** Only granting, passing on and giving back touch an exclusive agent's guard. */
  lemma FlowGuardsStep(c: Config, s: Sys, l: Label)
    requires FlowLabel(l) && l.f < |s.flows| == |c.members| && FlowEnabled(c, s, l)
    ensures var g, h := s.flows[l.f].guards, FlowAfter(c, s, l).guards;
      if l.Grant? then h == g + {Wanted(c, s, l.f)}
      else if l.Spawn? then h == {}
      else if l.DropGuard? then h == g - {l.a}
      else forall a :: IsExclusive(c, a) ==> (a in h <==> a in g)
    ensures !l.Grant? && !l.Spawn? && !l.DropGuard? ==> LockedAfter(c, s, l) == s.locked
  {
  }

  lemma GrantLocks(c: Config, s: Sys, t: Sys, f: Flow, a: Agent)
    requires Locks(c, s) && f < |s.flows| && a !in s.locked && IsExclusive(c, a)
    requires |t.flows| == |s.flows| && t.runs == s.runs && t.locked == s.locked[a := ByWorker(f)]
    requires forall g :: 0 <= g < |t.flows| ==> t.flows[g].guards == if g == f then s.flows[f].guards + {a} else s.flows[g].guards
    ensures Locks(c, t)
  {
  }

  lemma SpawnLocks(c: Config, s: Sys, t: Sys, f: Flow, q: RunTask)
    requires Locks(c, s) && f < |s.flows|
    requires |t.flows| == |s.flows| && t.runs == s.runs + [q] && t.locked == HandOver(s.locked, f, |s.runs|)
    requires q.guards == s.flows[f].guards
    requires forall g :: 0 <= g < |t.flows| ==> t.flows[g].guards == if g == f then {} else s.flows[g].guards
    ensures Locks(c, t)
  {
  }

  lemma DropLocks(c: Config, s: Sys, t: Sys, f: Flow, a: Agent)
    requires Locks(c, s) && f < |s.flows| && a in s.flows[f].guards
    requires |t.flows| == |s.flows| && t.runs == s.runs && t.locked == Unlock(s.locked, a)
    requires forall g :: 0 <= g < |t.flows| ==> t.flows[g].guards == if g == f then s.flows[f].guards - {a} else s.flows[g].guards
    ensures Locks(c, t)
  {
  }

  lemma FlowLocksStep(c: Config, s: Sys, l: Label)
    requires FlowLabel(l) && l.f < |s.flows| == |c.members| && FlowEnabled(c, s, l)
    requires Locks(c, s) && (l.Grant? ==> IsExclusive(c, Wanted(c, s, l.f)))
    ensures Locks(c, FlowNext(c, s, l))
  {
    var t := FlowNext(c, s, l);
    FlowGuardsStep(c, s, l);
    var gl := FlowAfter(c, s, l);
    assert t.flows == s.flows[l.f := gl];
    if l.Grant? {
      GrantLocks(c, s, t, l.f, Wanted(c, s, l.f));
    } else if l.Spawn? {
      SpawnLocks(c, s, t, l.f, t.runs[|s.runs|]);
    } else if l.DropGuard? {
      DropLocks(c, s, t, l.f, l.a);
    } else {
      SameLocks(c, s, t, l.f);
    }
  }

  lemma SameLocks(c: Config, s: Sys, t: Sys, f: Flow)
    requires Locks(c, s) && f < |s.flows| && |t.flows| == |s.flows| && t.runs == s.runs && t.locked == s.locked
    requires forall g :: 0 <= g < |t.flows| && g != f ==> t.flows[g] == s.flows[g]
    requires forall a :: IsExclusive(c, a) ==> (a in t.flows[f].guards <==> a in s.flows[f].guards)
    ensures Locks(c, t)
  {
  }

  lemma RunLocksStep(c: Config, s: Sys, l: Label)
    requires !FlowLabel(l) && !l.Shutdown? && l.r < |s.runs| && RunEnabled(s, l)
    requires Locks(c, s)
    ensures Locks(c, RunNext(s, l))
  {
    var t := RunNext(s, l);
    assert forall f :: 0 <= f < |s.flows| ==> t.flows[f].guards == s.flows[f].guards;
    assert forall r :: 0 <= r < |s.runs| && r != l.r ==> t.runs[r] == s.runs[r];
    assert t.runs[l.r].guards == if l.ReleaseGuard? then s.runs[l.r].guards - {l.a} else s.runs[l.r].guards;
  }

  lemma LocksStep(c: Config, s: Sys, l: Label)
    requires Passed(c, s) && Locks(c, s) && Waits(c, s) && Enabled(c, s, l)
    ensures Locks(c, Next(c, s, l))
  {
    if FlowLabel(l) {
      FlowLocksStep(c, s, l);
    } else if !l.Shutdown? {
      RunLocksStep(c, s, l);
    }
  }

  /** A worker parked on an agent's lock. */
  predicate OnLock(w: Worker) { w.Locking? && w.waiting }

  lemma FlowWaitingStep(c: Config, s: Sys, l: Label)
    requires FlowLabel(l) && l.f < |s.flows| == |c.members| && FlowEnabled(c, s, l)
    requires FlowPassed(c.members[l.f], s.flows[l.f])
    requires OnLock(s.flows[l.f].worker) ==> IsExclusive(c, Wanted(c, s, l.f))
    ensures var w, v := s.flows[l.f].worker, FlowAfter(c, s, l).worker;
      if l.Request? then !OnLock(w) && v == w.(waiting := true)
      else if l.Grant? then OnLock(w) && !OnLock(v)
      else if l.Trip? && OnLock(w) then !OnLock(v)
      else WaitingAfter(c, s, l) == s.waiting && (OnLock(w) || OnLock(v) ==> v == w)
  {
  }

  lemma {:induction false} WithoutDistinct(q: seq<Flow>, f: Flow)
    requires Distinct(q)
    ensures Distinct(Without(q, f))
    ensures forall g :: g in Without(q, f) <==> g in q && g != f
  {
    if q != [] {
      WithoutDistinct(q[1..], f);
      assert q == [q[0]] + q[1..];
      if q[0] != f { assert Without(q, f) == [q[0]] + Without(q[1..], f) && q[0] !in q[1..]; }
    }
  }

  /** One flow joins or leaves one agent's queue; every other queue and worker stands. */
  lemma WaitsChange(c: Config, s: Sys, t: Sys, f: Flow, a: Agent, q: seq<Flow>, waits: bool)
    requires Waits(c, s) && f < |s.flows| && |t.flows| == |s.flows|
    requires forall g :: 0 <= g < |t.flows| && g != f ==> t.flows[g].worker == s.flows[g].worker
    requires t.waiting == s.waiting[a := q] && Distinct(q)
    requires forall g :: g in q <==> (g in Waiters(s, a) && g != f) || (g == f && waits)
    requires OnLock(s.flows[f].worker) ==> Wants(c, s, f) && Wanted(c, s, f) == a
    requires OnLock(t.flows[f].worker) <==> waits
    requires waits ==> Wants(c, t, f) && Wanted(c, t, f) == a && IsExclusive(c, a)
    ensures Waits(c, t)
  {
    forall b, g | g in Waiters(t, b) ensures g < |t.flows| && WaitsFor(c, t, g, b) {
      if b != a { assert g in Waiters(s, b); assert WaitsFor(c, s, g, b); }
      else if g != f { assert WaitsFor(c, s, g, a); }
    }
    forall b ensures Distinct(Waiters(t, b)) {
      assert b != a ==> Waiters(t, b) == Waiters(s, b);
    }
  }

  lemma SameWaits(c: Config, s: Sys, t: Sys)
    requires Waits(c, s) && |t.flows| == |s.flows| && t.waiting == s.waiting
    requires forall g :: 0 <= g < |t.flows| && t.flows[g].worker != s.flows[g].worker ==>
      !OnLock(s.flows[g].worker) && !OnLock(t.flows[g].worker)
    ensures Waits(c, t)
  {
    assert forall a :: Waiters(t, a) == Waiters(s, a);
    forall a, g | g in Waiters(t, a) ensures g < |t.flows| && WaitsFor(c, t, g, a) {
      assert WaitsFor(c, s, g, a);
    }
  }

  lemma FlowWaitsStep(c: Config, s: Sys, l: Label)
    requires FlowLabel(l) && l.f < |s.flows| == |c.members| && FlowEnabled(c, s, l)
    requires FlowPassed(c.members[l.f], s.flows[l.f]) && Waits(c, s)
    ensures Waits(c, FlowNext(c, s, l))
  {
    var t := FlowNext(c, s, l);
    var f := l.f;
    FlowWaitingStep(c, s, l);
    assert t.flows == s.flows[f := FlowAfter(c, s, l)];
    if l.Request? {
      var a := Wanted(c, s, f);
      assert f in Waiters(s, a) ==> WaitsFor(c, s, f, a);
      WaitsChange(c, s, t, f, a, Waiters(s, a) + [f], true);
    } else if l.Grant? {
      var a := Wanted(c, s, f);
      WaitsChange(c, s, t, f, a, Waiters(s, a)[1..], false);
    } else if l.Trip? && OnLock(s.flows[f].worker) {
      var a := Wanted(c, s, f);
      WithoutDistinct(Waiters(s, a), f);
      WaitsChange(c, s, t, f, a, Without(Waiters(s, a), f), false);
    } else {
      SameWaits(c, s, t);
    }
  }

  lemma WaitsStep(c: Config, s: Sys, l: Label)
    requires Passed(c, s) && Waits(c, s) && Enabled(c, s, l)
    ensures Waits(c, Next(c, s, l))
  {
    if FlowLabel(l) {
      FlowWaitsStep(c, s, l);
    } else {
      SameWaits(c, s, Next(c, s, l));
    }
  }

  predicate QueueLabel(l: Label) {
    l.Admit? || l.Count? || l.Register? || l.Send? || l.Dequeue? || l.Close?
  }

  lemma QueueHoldsStep(c: Config, s: Sys, l: Label, id: Id)
    requires FlowLabel(l) && l.f < |s.flows| == |c.members| && FlowEnabled(c, s, l) && QueueLabel(l)
    ensures FlowHolds(FlowAfter(c, s, l), id) == FlowHolds(s.flows[l.f], id) + (if l.Register? && id == |s.hub| then 1 else 0)
  {
    var fl, gl := s.flows[l.f], FlowAfter(c, s, l);
    if l.Dequeue? {
      assert fl.queue == [fl.queue[0]] + gl.queue;
    } else if l.Send? {
      assert multiset(gl.queue) == multiset(fl.queue) + multiset{fl.accept.id};
    }
  }

  lemma WorkerHoldsStep(c: Config, s: Sys, l: Label, id: Id)
    requires FlowLabel(l) && l.f < |s.flows| == |c.members| && FlowEnabled(c, s, l) && !QueueLabel(l)
    requires FlowLocal(s.flows[l.f])
    ensures FlowAfter(c, s, l).queue == s.flows[l.f].queue && FlowAfter(c, s, l).accept == s.flows[l.f].accept
    ensures WorkerHolds(FlowAfter(c, s, l).worker, id) + (if SettledBy(s, l) == [id] then 1 else 0)
            + (if l.Spawn? && s.flows[l.f].worker.job == id then 1 else 0)
         == WorkerHolds(s.flows[l.f].worker, id)
  {
    WorkerKeepsQueue(c, s, l);
    if l.DrainFinish? {
      var w := s.flows[l.f].worker;
      assert w.left == [w.left[0]] + w.left[1..];
    }
  }

  lemma WorkerKeepsQueue(c: Config, s: Sys, l: Label)
    requires FlowLabel(l) && l.f < |s.flows| == |c.members| && FlowEnabled(c, s, l) && !QueueLabel(l)
    ensures FlowAfter(c, s, l).queue == s.flows[l.f].queue && FlowAfter(c, s, l).accept == s.flows[l.f].accept
  {
  }

  /** A flow step keeps each id it touches in the flow, settles it, or hands it to the run it spawns. */
  lemma FlowHoldsStep(c: Config, s: Sys, l: Label, id: Id)
    requires FlowLabel(l) && l.f < |s.flows| == |c.members| && FlowEnabled(c, s, l)
    requires FlowLocal(s.flows[l.f])
    ensures FlowHolds(FlowAfter(c, s, l), id) + (if SettledBy(s, l) == [id] then 1 else 0)
            + (if l.Spawn? && s.flows[l.f].worker.job == id then 1 else 0)
         == FlowHolds(s.flows[l.f], id) + (if l.Register? && id == |s.hub| then 1 else 0)
  {
    if QueueLabel(l) { QueueHoldsStep(c, s, l, id); } else { WorkerHoldsStep(c, s, l, id); }
  }

  lemma HubLength(c: Config, s: Sys, l: Label)
    requires FlowLabel(l) && l.f < |s.flows| == |c.members| && FlowEnabled(c, s, l)
    ensures |HubAfter(c, s, l)| == |s.hub| + (if l.Register? then 1 else 0)
    ensures |SettledBy(s, l)| <= 1
  {
  }

  lemma ConservedStep(c: Config, s: Sys, l: Label)
    requires Local(s) && Passed(c, s) && Conserved(s) && Enabled(c, s, l)
    ensures Conserved(Next(c, s, l))
  {
    if FlowLabel(l) {
      FlowConservedStep(c, s, l);
    } else if !l.Shutdown? {
      RunConservedStep(c, s, l);
    } else {
      var t := Next(c, s, l);
      forall id: Id ensures Places(t, id) == if id < |t.hub| then 1 else 0 { assert Places(t, id) == Places(s, id); }
    }
  }

  lemma PutPlaces(s: Sys, t: Sys, f: Flow, gl: FlowState, out: seq<Id>, spawn: bool, q: RunTask, id: Id)
    requires f < |s.flows| && t.flows == s.flows[f := gl] && t.settled == s.settled + out && |out| <= 1
    requires t.runs == (if spawn then s.runs + [q] else s.runs) && q.settle == 0
    ensures Places(t, id) == Places(s, id) - FlowHolds(s.flows[f], id) + FlowHolds(gl, id)
                             + (if out == [id] then 1 else 0) + (if spawn && q.id == id then 1 else 0)
  {
    FlowTotalUpdate(Holds(id), s.flows, f, gl);
    RunTotalAppend(Holds(id), s.runs, q);
    assert multiset(s.settled + out) == multiset(s.settled) + multiset(out);
  }

  lemma FlowConservedStep(c: Config, s: Sys, l: Label)
    requires FlowLabel(l) && l.f < |s.flows| == |c.members| && FlowEnabled(c, s, l)
    requires Local(s) && Conserved(s)
    ensures Conserved(FlowNext(c, s, l))
  {
    var t := FlowNext(c, s, l);
    var q := RunTask(l.f, if l.Spawn? then s.flows[l.f].worker.job else 0, Live, 0, true, s.flows[l.f].guards);
    HubLength(c, s, l);
    forall id: Id ensures Places(t, id) == if id < |t.hub| then 1 else 0 {
      FlowHoldsStep(c, s, l, id);
      PutPlaces(s, t, l.f, FlowAfter(c, s, l), SettledBy(s, l), l.Spawn?, q, id);
      assert Places(s, id) == if id < |s.hub| then 1 else 0;
    }
  }

  lemma RunPlaces(s: Sys, l: Label, id: Id)
    requires !FlowLabel(l) && !l.Shutdown? && l.r < |s.runs| && RunEnabled(s, l)
    requires s.runs[l.r].flow < |s.flows|
    ensures Places(RunNext(s, l), id) == Places(s, id)
  {
    var t := RunNext(s, l);
    var q := s.runs[l.r];
    RunTotalUpdate(Holds(id), s.runs, l.r, RunAfter(q, l));
    CountersKeepIds(s.flows, q.flow, l, id);
    assert multiset(s.settled + [q.id])[id] == multiset(s.settled)[id] + (if q.id == id then 1 else 0);
  }

  lemma CountersKeepIds(flows: seq<FlowState>, f: Flow, l: Label, id: Id)
    requires f < |flows|
    ensures FlowTotal(Holds(id), CountersAfter(flows, f, l)) == FlowTotal(Holds(id), flows)
  {
    var after := CountersAfter(flows, f, l);
    FlowTotalUpdate(Holds(id), flows, f, after[f]);
    assert after == flows[f := after[f]];
  }

  lemma RunConservedStep(c: Config, s: Sys, l: Label)
    requires !FlowLabel(l) && !l.Shutdown? && l.r < |s.runs| && RunEnabled(s, l)
    requires Passed(c, s) && Conserved(s)
    ensures Conserved(RunNext(s, l))
  {
    forall id: Id ensures Places(RunNext(s, l), id) == if id < |s.hub| then 1 else 0 {
      RunPlaces(s, l, id);
      assert Places(s, id) == if id < |s.hub| then 1 else 0;
    }
  }

  /** An id a flow or a run holds is registered and not settled; a settled one was settled once. */
  lemma HeldIsUnsettled(s: Sys, id: Id)
    requires Conserved(s)
    ensures FlowTotal(Holds(id), s.flows) + RunTotal(Holds(id), s.runs) > 0 <==> id < |s.hub| && id !in s.settled
    ensures id in s.settled ==> id < |s.hub| && multiset(s.settled)[id] == 1
  {
    assert Places(s, id) == if id < |s.hub| then 1 else 0;
    assert id in s.settled <==> id in multiset(s.settled);
  }

  lemma SettleRecord(s: Sys, t: Sys, id: Id)
    requires Recorded(s) && id < |s.hub|
    requires t.hub == SetStatus(s.hub, id, Terminal) && t.settled == s.settled + [id] && t.begun == s.begun
    ensures Recorded(t)
  {
  }

  lemma BeginRecord(s: Sys, t: Sys, id: Id)
    requires Recorded(s) && id < |s.hub| && id !in s.settled
    requires t.hub == SetStatus(s.hub, id, Running) && t.settled == s.settled && t.begun == s.begun + {id}
    ensures Recorded(t)
  {
  }

  /** The hub after a flow step, from the parts of the step that touch it. */
  lemma FlowHubStep(c: Config, s: Sys, l: Label)
    requires FlowLabel(l) && l.f < |s.flows| == |c.members| && FlowEnabled(c, s, l)
    ensures !l.Register? && !l.Begin? && SettledBy(s, l) == [] ==> HubAfter(c, s, l) == s.hub
    ensures l.Begin? || l.Register? ==> SettledBy(s, l) == []
    ensures SettledBy(s, l) != [] ==> FlowHolds(s.flows[l.f], SettledBy(s, l)[0]) > 0
    ensures l.Begin? ==> FlowHolds(s.flows[l.f], s.flows[l.f].worker.job) > 0
  {
  }

  lemma RegisterRecord(s: Sys, t: Sys, p: nat)
    requires Recorded(s) && t.hub == s.hub + [Queued(p)] && t.settled == s.settled && t.begun == s.begun
    ensures Recorded(t)
  {
  }

  lemma FlowRecordedStep(c: Config, s: Sys, l: Label)
    requires FlowLabel(l) && l.f < |s.flows| == |c.members| && FlowEnabled(c, s, l)
    requires Conserved(s) && Recorded(s)
    ensures Recorded(FlowNext(c, s, l))
  {
    var t := FlowNext(c, s, l);
    FlowHubStep(c, s, l);
    HubLength(c, s, l);
    if l.Register? {
      RegisterRecord(s, t, s.flows[l.f].accept.position);
    } else if l.Begin? {
      var id := s.flows[l.f].worker.job;
      FlowTotalUpdate(Holds(id), s.flows, l.f, s.flows[l.f]);
      HeldIsUnsettled(s, id);
      BeginRecord(s, t, id);
    } else if SettledBy(s, l) != [] {
      var id := SettledBy(s, l)[0];
      FlowTotalUpdate(Holds(id), s.flows, l.f, s.flows[l.f]);
      HeldIsUnsettled(s, id);
      assert SettledBy(s, l) == [id];
      SettleRecord(s, t, id);
    } else {
      assert t.settled == s.settled;
    }
  }

  lemma RecordedStep(c: Config, s: Sys, l: Label)
    requires Passed(c, s) && Conserved(s) && Recorded(s) && Enabled(c, s, l)
    ensures Recorded(Next(c, s, l))
  {
    if FlowLabel(l) {
      FlowRecordedStep(c, s, l);
    } else if !l.Shutdown? && l.SettleHub? {
      var id := s.runs[l.r].id;
      RunTotalUpdate(Holds(id), s.runs, l.r, s.runs[l.r]);
      HeldIsUnsettled(s, id);
      SettleRecord(s, Next(c, s, l), id);
    }
  }

  lemma {:induction false} SpawnedUpdate(f: Flow, runs: seq<RunTask>, r: nat, q: RunTask)
    requires r < |runs| && q.flow == runs[r].flow && q.id == runs[r].id
    ensures Spawned(f, runs[r := q]) == Spawned(f, runs)
  {
    var n := |runs| - 1;
    if r == n {
      assert runs[r := q][..n] == runs[..n];
    } else {
      SpawnedUpdate(f, runs[..n], r, q);
      assert runs[r := q][..n] == runs[..n][r := q];
    }
  }

  lemma FlowSentStep(c: Config, s: Sys, l: Label)
    requires FlowLabel(l) && l.f < |s.flows| == |c.members| && FlowEnabled(c, s, l)
    ensures FlowAfter(c, s, l).sent == s.flows[l.f].sent
         || (FlowHolds(s.flows[l.f], s.flows[l.f].accept.id) > 0
             && FlowAfter(c, s, l).sent == s.flows[l.f].sent + [s.flows[l.f].accept.id])
    ensures FlowAfter(c, s, l).started == s.flows[l.f].started + (if l.Spawn? then [s.flows[l.f].worker.job] else [])
    ensures l.Spawn? ==> FlowHolds(s.flows[l.f], s.flows[l.f].worker.job) > 0
  {
  }

  lemma PutHomes(s: Sys, t: Sys, f: Flow, gl: FlowState, spawn: bool, q: RunTask)
    requires Homes(s) && f < |s.flows| && t.flows == s.flows[f := gl]
    requires t.runs == if spawn then s.runs + [q] else s.runs
    requires RunLocal(q) && q.flow == f && (spawn ==> HomeIs(t.home, q.id, f))
    requires |t.home| == |t.hub| && forall id: Id, g :: HomeIs(s.home, id, g) ==> HomeIs(t.home, id, g)
    requires FlowHome(t.home, f, gl)
    requires gl.started == s.flows[f].started + (if spawn then [q.id] else [])
    ensures Homes(t)
  {
    forall g | 0 <= g < |t.flows| ensures FlowHome(t.home, g, t.flows[g]) {
      assert FlowHome(s.home, g, s.flows[g]);
      if g != f { HomeGrows(s.home, t.home, g, s.flows[g]); }
    }
    forall g | 0 <= g < |t.flows| ensures Spawned(g, t.runs) == t.flows[g].started {
      SpawnedAppend(g, s.runs, q);
      assert Spawned(g, s.runs) == s.flows[g].started;
    }
  }

  lemma HomeGrows(home: seq<Flow>, more: seq<Flow>, g: Flow, fl: FlowState)
    requires FlowHome(home, g, fl) && forall id: Id, h :: HomeIs(home, id, h) ==> HomeIs(more, id, h)
    ensures FlowHome(more, g, fl)
  {
  }

  lemma SpawnedAppend(g: Flow, runs: seq<RunTask>, q: RunTask)
    ensures Spawned(g, runs + [q]) == Spawned(g, runs) + (if q.flow == g then [q.id] else [])
  {
    assert (runs + [q])[..|runs|] == runs;
  }

  lemma FlowHomesStep(c: Config, s: Sys, l: Label)
    requires FlowLabel(l) && l.f < |s.flows| == |c.members| && FlowEnabled(c, s, l)
    requires Local(s) && Homes(s)
    ensures Homes(FlowNext(c, s, l))
  {
    var t := FlowNext(c, s, l);
    var gl := FlowAfter(c, s, l);
    HubLength(c, s, l);
    FlowSentStep(c, s, l);
    assert FlowHome(s.home, l.f, s.flows[l.f]);
    assert forall id: Id, g :: HomeIs(s.home, id, g) ==> HomeIs(t.home, id, g);
    forall id: Id | FlowHolds(gl, id) > 0 ensures HomeIs(t.home, id, l.f) {
      FlowHoldsStep(c, s, l, id);
    }
    var q := RunTask(l.f, if l.Spawn? then s.flows[l.f].worker.job else 0, Live, 0, true, s.flows[l.f].guards);
    PutHomes(s, t, l.f, gl, l.Spawn?, q);
  }

  lemma HomesStep(c: Config, s: Sys, l: Label)
    requires Passed(c, s) && Local(s) && Homes(s) && Enabled(c, s, l)
    ensures Homes(Next(c, s, l))
  {
    if FlowLabel(l) {
      FlowHomesStep(c, s, l);
    } else if l.Shutdown? {
      SameHomes(s, Next(c, s, l));
    } else {
      RunHomesStep(s, l);
    }
  }

  /** Homes is about ids and history only. */
  lemma SameHomes(s: Sys, t: Sys)
    requires Homes(s) && |t.flows| == |s.flows| && |t.hub| == |s.hub| && t.home == s.home
    requires forall f :: 0 <= f < |s.flows| ==>
      t.flows[f] == s.flows[f].(outstanding := t.flows[f].outstanding, running := t.flows[f].running)
    requires |t.runs| == |s.runs|
    requires forall r :: 0 <= r < |s.runs| ==> RunLocal(t.runs[r]) && t.runs[r].flow == s.runs[r].flow && t.runs[r].id == s.runs[r].id
    requires forall f :: 0 <= f < |s.flows| ==> Spawned(f, t.runs) == Spawned(f, s.runs)
    ensures Homes(t)
  {
    forall f | 0 <= f < |t.flows| ensures FlowHome(t.home, f, t.flows[f]) {
      assert FlowHome(s.home, f, s.flows[f]);
      assert forall id: Id :: FlowHolds(t.flows[f], id) == FlowHolds(s.flows[f], id);
    }
    forall f | 0 <= f < |t.flows| ensures Spawned(f, t.runs) == t.flows[f].started {
      assert Spawned(f, s.runs) == s.flows[f].started;
    }
  }

  lemma RunHomesStep(s: Sys, l: Label)
    requires !FlowLabel(l) && !l.Shutdown? && l.r < |s.runs| && RunEnabled(s, l)
    requires Homes(s)
    ensures Homes(RunNext(s, l))
  {
    var t := RunNext(s, l);
    assert RunLocal(s.runs[l.r]);
    forall f | 0 <= f < |s.flows| ensures Spawned(f, t.runs) == Spawned(f, s.runs) {
      SpawnedUpdate(f, s.runs, l.r, RunAfter(s.runs[l.r], l));
    }
    SameHomes(s, t);
  }

  lemma {:induction false} NothingYet(m: Metric, n: nat)
    requires m.Permits? || m.Holds?
    ensures FlowTotal(m, seq(n, i => Idle())) == 0
  {
    if n > 0 {
      NothingYet(m, n - 1);
      assert seq(n, i => Idle())[..n - 1] == seq(n - 1, i => Idle());
    }
  }

  lemma IdleCounters(f: Flow)
    ensures FlowCounters(Idle(), f, [])
  {
  }

  lemma InitCounters(c: Config)
    ensures Counters(c, Init(c))
  {
    var s := Init(c);
    assert s.free + RunTotal(Permits, s.runs) + FlowTotal(Permits, s.flows) == c.cap by { NothingYet(Permits, |c.members|); }
    forall f | 0 <= f < |s.flows| ensures FlowCounters(s.flows[f], f, s.runs) { IdleCounters(f); }
  }

  lemma InitConserved(c: Config)
    ensures Conserved(Init(c))
  {
    var s := Init(c);
    forall id: Id ensures Places(s, id) == 0 { NothingYet(Holds(id), |c.members|); }
  }

  lemma InitHomes(c: Config)
    ensures Homes(Init(c)) && Waits(c, Init(c))
  {
    var s := Init(c);
    assert forall f :: 0 <= f < |s.flows| ==> s.flows[f] == Idle();
    assert forall id: Id :: FlowHolds(Idle(), id) == 0;
    assert forall a :: Waiters(s, a) == [];
  }

  lemma InitInv(c: Config)
    ensures Inv(c, Init(c))
  {
    InitCounters(c);
    InitConserved(c);
    InitHomes(c);
  }

  /** Every step keeps every part of the invariant. */
  lemma InvStep(c: Config, s: Sys, l: Label)
    requires Inv(c, s) && Enabled(c, s, l)
    ensures Inv(c, Next(c, s, l))
  {
    CountersStep(c, s, l);
    LocalStep(c, s, l);
    LocksStep(c, s, l);
    PassedStep(c, s, l);
    WaitsStep(c, s, l);
    ConservedStep(c, s, l);
    RecordedStep(c, s, l);
    HomesStep(c, s, l);
  }

  lemma {:induction false} ExecInv(c: Config, ls: seq<Label>)
    ensures Exec(c, ls).At? ==> Inv(c, Exec(c, ls).s)
  {
    if ls == [] {
      InitInv(c);
    } else {
      ExecInv(c, ls[..|ls| - 1]);
      var o := Exec(c, ls[..|ls| - 1]);
      if o.At? && Enabled(c, o.s, ls[|ls| - 1]) { InvStep(c, o.s, ls[|ls| - 1]); }
    }
  }
}
