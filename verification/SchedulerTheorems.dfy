/** What the scheduler promises over whole schedules: safety in every reachable state, progress, and a drain bound. */
module SchedulerTheorems {
  import opened Scheduler
  import opened SchedulerSafety

  lemma ReachableInv(c: Config, s: Sys)
    requires Reachable(c, s)
    ensures Inv(c, s)
  {
    var ls :| Exec(c, ls) == At(s);
    ExecInv(c, ls);
  }

  lemma Extend(c: Config, ls: seq<Label>, s: Sys, l: Label)
    requires Exec(c, ls) == At(s) && Enabled(c, s, l)
    ensures Exec(c, ls + [l]) == At(Next(c, s, l))
  {
    assert (ls + [l])[..|ls|] == ls;
  }

  lemma ReachableNext(c: Config, s: Sys, l: Label)
    requires Reachable(c, s) && Enabled(c, s, l)
    ensures Reachable(c, Next(c, s, l))
  {
    var ls :| Exec(c, ls) == At(s);
    Extend(c, ls, s, l);
  }

  // ---- safety ----

  function Guards(s: Sys, h: Holder): set<Agent>
    requires HolderExists(s, h)
  {
    match h case ByWorker(f) => s.flows[f].guards case ByRun(r) => s.runs[r].guards
  }

  /** An exclusive agent is in the guards of at most one worker or run. */
  lemma ExclusiveHeldOnce(c: Config, s: Sys, a: Agent, h: Holder, k: Holder)
    requires Reachable(c, s) && IsExclusive(c, a) && HolderExists(s, h) && HolderExists(s, k)
    requires a in Guards(s, h) && a in Guards(s, k)
    ensures h == k
  {
    assert Locks(c, s) by { ReachableInv(c, s); }
    assert s.locked[a] == h && s.locked[a] == k;
  }

  lemma {:induction false} WeightBound(f: Flow, runs: seq<RunTask>)
    requires forall r :: 0 <= r < |runs| ==> RunLocal(runs[r])
    ensures RunTotal(Slots(f), runs) <= RunTotal(Permits, runs) + Orphans(f, runs)
  {
    if runs != [] { WeightBound(f, runs[..|runs| - 1]); }
  }

  /** Runs of flow f dropped by a panic that gave their permit back before their queue slot. */
  function Orphans(f: Flow, runs: seq<RunTask>): nat {
    if runs == [] then 0
    else
      var q := runs[|runs| - 1];
      Orphans(f, runs[..|runs| - 1]) + (if q.flow == f && q.settle == 0 && !q.permit then 1 else 0)
  }

  lemma {:induction false} NoOrphans(f: Flow, runs: seq<RunTask>)
    requires forall r :: 0 <= r < |runs| ==> RunLocal(runs[r])
    requires forall r :: 0 <= r < |runs| && runs[r].flow == f && runs[r].settle == 0 ==> !runs[r].task.Dropped? || runs[r].permit
    ensures Orphans(f, runs) == 0
  {
    if runs != [] { NoOrphans(f, runs[..|runs| - 1]); }
  }

  function LiveRuns(runs: seq<RunTask>): nat {
    if runs == [] then 0 else LiveRuns(runs[..|runs| - 1]) + (if runs[|runs| - 1].task.Live? then 1 else 0)
  }

  lemma {:induction false} LiveHoldPermits(runs: seq<RunTask>)
    requires forall r :: 0 <= r < |runs| ==> RunLocal(runs[r])
    ensures LiveRuns(runs) <= RunTotal(Permits, runs)
  {
    if runs != [] { LiveHoldPermits(runs[..|runs| - 1]); }
  }

  /** Live runs never exceed max_concurrent_runs, and permits are neither lost nor minted. */
  lemma RunsWithinCap(c: Config, s: Sys)
    requires Reachable(c, s)
    ensures LiveRuns(s.runs) <= RunTotal(Permits, s.runs) <= c.cap
    ensures s.free + RunTotal(Permits, s.runs) + FlowTotal(Permits, s.flows) == c.cap
  {
    ReachableInv(c, s);
    LiveHoldPermits(s.runs);
  }

  /** `outstanding` is what waits plus the runs that still count, `running` the runs committed to and not counted down,
      and a flow owes at most its queue, one job in hand and its share of the permits,
      plus any run a panic stripped of its permit first. */
  lemma CountsAreExact(c: Config, s: Sys, f: Flow)
    requires Reachable(c, s) && f < |s.flows|
    ensures s.flows[f].outstanding == Waiting(s.flows[f]) + RunTotal(Slots(f), s.runs)
    ensures s.flows[f].running == RunTotal(Counts(f), s.runs) + (if s.flows[f].worker.Committed? then 1 else 0)
    ensures s.flows[f].outstanding <= QUEUE_CAP + 1 + c.cap + Orphans(f, s.runs)
    ensures (forall r :: 0 <= r < |s.runs| && s.runs[r].flow == f && s.runs[r].settle == 0 ==> !s.runs[r].task.Dropped? || s.runs[r].permit)
            ==> s.flows[f].outstanding <= QUEUE_CAP + 1 + c.cap
  {
    ReachableInv(c, s);
    assert FlowCounters(s.flows[f], f, s.runs) && FlowLocal(s.flows[f]);
    WeightBound(f, s.runs);
    if forall r :: 0 <= r < |s.runs| && s.runs[r].flow == f && s.runs[r].settle == 0 ==> !s.runs[r].task.Dropped? || s.runs[r].permit {
      NoOrphans(f, s.runs);
    }
  }

  /** A flow's runs start in admission order: the ids of its spawned runs are a prefix of the ids it queued. */
  lemma RunsStartInOrder(c: Config, s: Sys, f: Flow)
    requires Reachable(c, s) && f < |s.flows|
    ensures Spawned(f, s.runs) <= s.flows[f].sent
  {
    ReachableInv(c, s);
    var fl := s.flows[f];
    assert FlowLocal(fl) && Spawned(f, s.runs) == fl.started;
    assert fl.started <= fl.taken;
  }

  /** The position a caller is told counts the triggers of the flow accepted before it that still hold a slot. */
  lemma PositionIsQueueLength(c: Config, s: Sys, f: Flow)
    requires Reachable(c, s) && Enabled(c, s, Count(f))
    ensures Next(c, s, Count(f)).flows[f].accept == Counted(Waiting(s.flows[f]) + RunTotal(Slots(f), s.runs))
  {
    CountsAreExact(c, s, f);
  }

  lemma {:induction false} TotalWitness(m: Metric, runs: seq<RunTask>) returns (r: nat)
    requires RunTotal(m, runs) > 0
    ensures r < |runs| && RunWeight(m, runs[r]) > 0
  {
    if RunWeight(m, runs[|runs| - 1]) > 0 { r := |runs| - 1; } else { r := TotalWitness(m, runs[..|runs| - 1]); }
  }

  lemma {:induction false} FlowWitness(m: Metric, flows: seq<FlowState>) returns (f: nat)
    requires FlowTotal(m, flows) > 0
    ensures f < |flows| && FlowWeight(m, f, flows[f]) > 0
  {
    if FlowWeight(m, |flows| - 1, flows[|flows| - 1]) > 0 { f := |flows| - 1; } else { f := FlowWitness(m, flows[..|flows| - 1]); }
  }

  /** Every registered trigger is settled at most once, and unsettled exactly while its own flow or run holds it. */
  lemma SettledAtMostOnce(c: Config, s: Sys, id: Id)
    requires Reachable(c, s)
    ensures multiset(s.settled)[id] <= 1
    ensures id in s.settled ==> id < |s.hub|
    ensures id < |s.hub| && id !in s.settled ==>
      (exists f :: 0 <= f < |s.flows| && FlowHolds(s.flows[f], id) > 0) || (exists r :: 0 <= r < |s.runs| && RunWeight(Holds(id), s.runs[r]) > 0)
  {
    ReachableInv(c, s);
    HeldIsUnsettled(s, id);
    if id < |s.hub| && id !in s.settled {
      if RunTotal(Holds(id), s.runs) > 0 { var r := TotalWitness(Holds(id), s.runs); }
      else { var f := FlowWitness(Holds(id), s.flows); }
    }
  }

  /** Once a worker has exited and its runs have settled, everything its queue ever took is settled exactly once. */
  lemma NothingStranded(c: Config, s: Sys, f: Flow, id: Id)
    requires Reachable(c, s) && f < |s.flows| && s.flows[f].worker.Exited?
    requires forall r :: 0 <= r < |s.runs| && s.runs[r].flow == f ==> s.runs[r].settle == 3
    requires HomeIs(s.home, id, f)
    ensures multiset(s.settled)[id] == 1
  {
    assert FlowLocal(s.flows[f]) && Homes(s) && Conserved(s) by { ReachableInv(c, s); }
    hide Reachable;
    Unheld(s, f, id);
  }

  lemma Unheld(s: Sys, f: Flow, id: Id)
    requires f < |s.flows| && FlowLocal(s.flows[f]) && s.flows[f].worker.Exited? && Homes(s) && Conserved(s)
    requires forall r :: 0 <= r < |s.runs| && s.runs[r].flow == f ==> s.runs[r].settle == 3
    requires HomeIs(s.home, id, f)
    ensures multiset(s.settled)[id] == 1
  {
    HeldIsUnsettled(s, id);
    NoRunHolds(s, f, id);
    NoFlowHolds(s, f, id);
    assert |s.home| == |s.hub|;
    hide Homes, Conserved;
  }

  lemma NoRunHolds(s: Sys, f: Flow, id: Id)
    requires Homes(s) && HomeIs(s.home, id, f)
    requires forall r :: 0 <= r < |s.runs| && s.runs[r].flow == f ==> s.runs[r].settle == 3
    ensures RunTotal(Holds(id), s.runs) == 0
  {
    forall r | 0 <= r < |s.runs| ensures RunWeight(Holds(id), s.runs[r]) == 0 {
      assert HomeIs(s.home, s.runs[r].id, s.runs[r].flow);
    }
    ZeroRuns(Holds(id), s.runs);
  }

  lemma NoFlowHolds(s: Sys, f: Flow, id: Id)
    requires Homes(s) && HomeIs(s.home, id, f) && f < |s.flows| && FlowHolds(s.flows[f], id) == 0
    ensures FlowTotal(Holds(id), s.flows) == 0
  {
    forall g | 0 <= g < |s.flows| ensures FlowWeight(Holds(id), g, s.flows[g]) == 0 {
      assert FlowHome(s.home, g, s.flows[g]);
      assert FlowHolds(s.flows[g], id) > 0 ==> HomeIs(s.home, id, g);
    }
    ZeroFlows(Holds(id), s.flows);
  }

  lemma {:induction false} ZeroRuns(m: Metric, runs: seq<RunTask>)
    requires forall r :: 0 <= r < |runs| ==> RunWeight(m, runs[r]) == 0
    ensures RunTotal(m, runs) == 0
  {
    if runs != [] { ZeroRuns(m, runs[..|runs| - 1]); }
  }

  lemma {:induction false} ZeroFlows(m: Metric, flows: seq<FlowState>)
    requires forall g :: 0 <= g < |flows| ==> FlowWeight(m, g, flows[g]) == 0
    ensures FlowTotal(m, flows) == 0
  {
    if flows != [] { ZeroFlows(m, flows[..|flows| - 1]); }
  }

  /** While a record is in the history it is terminal exactly when its trigger was settled,
      and a settled record is never changed again. */
  lemma TerminalIffSettled(c: Config, s: Sys, id: Id)
    requires Reachable(c, s) && Visible(s, id)
    ensures s.hub[id].Terminal? <==> id in s.settled
    ensures s.hub[id].Running? <==> id in s.begun && id !in s.settled
  {
    ReachableInv(c, s);
  }

  lemma TerminalStays(c: Config, s: Sys, l: Label, id: Id)
    requires Reachable(c, s) && Enabled(c, s, l) && Visible(s, id) && s.hub[id].Terminal?
    requires Visible(Next(c, s, l), id)
    ensures Next(c, s, l).hub[id].Terminal?
  {
    var t := Next(c, s, l);
    ReachableNext(c, s, l);
    TerminalIffSettled(c, s, id);
    TerminalIffSettled(c, t, id);
    if FlowLabel(l) { assert t.settled == s.settled + SettledBy(s, l); }
  }

  predicate HasPlace(q: seq<Flow>, f: Flow, i: nat) { exists j :: 0 <= j <= i && j < |q| && q[j] == f }

  /** A flow waiting for an agent never loses its place to a later one. */
  lemma PlaceInLineKept(c: Config, s: Sys, l: Label, a: Agent, i: nat)
    requires Reachable(c, s) && Enabled(c, s, l) && i < |Waiters(s, a)|
    ensures var f, q := Waiters(s, a)[i], Waiters(Next(c, s, l), a); f in q ==> HasPlace(q, f, i)
  {
    var p, q := Waiters(s, a), Waiters(Next(c, s, l), a);
    if FlowLabel(l) {
      assert Waits(c, s) by { ReachableInv(c, s); }
      var g := LineStep(c, s, l, a);
      if q == p[1..] {
        assert i > 0 ==> q[i - 1] == p[i];
        assert i == 0 ==> p[0] !in q;
      } else if q == Without(p, g) {
        WithoutDistinct(p, g);
        if p[i] != g { WithoutPlace(p, g, i); }
      } else {
        assert q[i] == p[i];
      }
    } else {
      assert q == p;
      assert q[i] == p[i];
    }
  }

  /** What a flow step does to one agent's line: nothing, a join, the head leaving, or one flow giving up. */
  lemma LineStep(c: Config, s: Sys, l: Label, a: Agent) returns (g: Flow)
    requires FlowLabel(l) && l.f < |s.flows| == |c.members| && FlowEnabled(c, s, l) && Waiters(s, a) != []
    ensures var p, q := Waiters(s, a), Waiters(FlowNext(c, s, l), a);
      q == p || q == p + [g] || q == p[1..] || q == Without(p, g)
  {
    g := l.f;
    assert FlowNext(c, s, l).waiting == WaitingAfter(c, s, l);
  }

  lemma {:induction false} WithoutPlace(q: seq<Flow>, g: Flow, i: nat)
    requires i < |q| && q[i] != g
    ensures HasPlace(Without(q, g), q[i], i)
  {
    if q[0] == g {
      assert Without(q, g)[i - 1] == q[i];
    } else if i == 0 {
      assert Without(q, g)[0] == q[0];
    } else {
      WithoutPlace(q[1..], g, i - 1);
      var j :| 0 <= j <= i - 1 && j < |Without(q[1..], g)| && Without(q[1..], g)[j] == q[1..][i - 1];
      assert Without(q, g)[j + 1] == q[i];
    }
  }

  // ---- progress ----

  /** A step the program takes by itself: neither a new arrival nor the operator's interrupt. */
  predicate Internal(l: Label) { !l.Admit? && !l.Shutdown? }

  ghost predicate CanStep(c: Config, s: Sys) { exists l :: Internal(l) && Enabled(c, s, l) }

  /** An accepted trigger is on its way in or not yet settled. */
  ghost predicate Pending(s: Sys) {
    (exists id: Id :: id < |s.hub| && id !in s.settled) || (exists f :: 0 <= f < |s.flows| && !s.flows[f].accept.NoAccept?)
  }

  lemma RunCanStep(c: Config, s: Sys, r: nat) returns (l: Label)
    requires Inv(c, s) && r < |s.runs|
    requires s.runs[r].settle < 3 || s.runs[r].permit || s.runs[r].guards != {}
    ensures Internal(l) && Enabled(c, s, l) && !FlowLabel(l) && l.r == r
  {
    assert RunLocal(s.runs[r]);
    l := RunOwnStep(s, r);
  }

  lemma RunOwnStep(s: Sys, r: nat) returns (l: Label)
    requires r < |s.runs| && RunLocal(s.runs[r])
    requires s.runs[r].settle < 3 || s.runs[r].permit || s.runs[r].guards != {}
    ensures !FlowLabel(l) && !l.Shutdown? && l.r == r && RunEnabled(s, l)
  {
    var q := s.runs[r];
    if q.task.Live? { l := End(r, false); }
    else if q.settle == 0 { l := SettleSlot(r); }
    else if q.settle == 1 { l := SettleCount(r); }
    else if q.settle == 2 { l := SettleHub(r); }
    else if q.permit { l := ReleasePermit(r); }
    else { var a :| a in q.guards; l := ReleaseGuard(r, a); }
  }

  predicate Free(w: Worker) { w.Ready? || w.Exited? || w.Locking? || w.Parked? }

  /** A flow inside an accept, or a worker outside its waits, has a step of its own. */
  lemma OwnStep(c: Config, s: Sys, f: Flow) returns (l: Label)
    requires f < |s.flows| == |c.members| && FlowLocal(s.flows[f])
    requires !s.flows[f].accept.NoAccept? || !Free(s.flows[f].worker)
    ensures FlowLabel(l) && Internal(l) && l.f == f && FlowEnabled(c, s, l)
  {
    var fl := s.flows[f];
    if fl.accept.Reserved? { l := Count(f); }
    else if fl.accept.Counted? { l := Register(f); }
    else if fl.accept.Registered? { l := Send(f); }
    else { l := WorkerOwnStep(c, s, f); }
  }

  lemma WorkerOwnStep(c: Config, s: Sys, f: Flow) returns (l: Label)
    requires f < |s.flows| == |c.members| && s.flows[f].accept.NoAccept? && !Free(s.flows[f].worker)
    ensures FlowLabel(l) && Internal(l) && l.f == f && FlowEnabled(c, s, l)
  {
    var fl := s.flows[f];
    match fl.worker
    case InHand(_) => l := Check(f);
    case Granted(_) => l := Begin(f);
    case Begun(_) => l := Commit(f);
    case Committed(_) => l := Spawn(f);
    case Abandoning(_, stage) =>
      if stage == 0 { l := ReleaseSlot(f); }
      else if stage == 1 { l := FinishQueued(f); }
      else if fl.guards == {} { l := Leave(f); }
      else { var a :| a in fl.guards; l := DropGuard(f, a); }
    case Closing => l := Close(f);
    case Draining(left, released) =>
      l := if left == [] then Exit(f) else if released then DrainFinish(f) else DrainRelease(f);
  }

  lemma FlowCanStep(c: Config, s: Sys, f: Flow) returns (l: Label)
    requires Inv(c, s) && f < |s.flows|
    requires !s.flows[f].accept.NoAccept? || !Free(s.flows[f].worker)
    ensures Internal(l) && Enabled(c, s, l) && FlowLabel(l) && l.f == f
  {
    l := OwnStep(c, s, f);
  }

  /** A step of a run or worker that has a permit. */
  predicate ByPermitHolder(c: Config, s: Sys, l: Label)
    requires Enabled(c, s, l)
  {
    if l.Shutdown? then false
    else if FlowLabel(l) then FlowWeight(Permits, l.f, s.flows[l.f]) > 0
    else s.runs[l.r].permit
  }

  predicate HoldsFrom(guards: set<Agent>, a: Agent) { exists b :: b in guards && b >= a }

  /** A step that agent a waits for: of a task that holds it or an agent further along the order, of a flow first in line
      for one, or of a task with a permit that such a task waits for. */
  predicate Unblocks(c: Config, s: Sys, a: Agent, l: Label)
    requires Enabled(c, s, l)
  {
    || ByPermitHolder(c, s, l)
    || (!l.Shutdown? && HoldsFrom(if FlowLabel(l) then s.flows[l.f].guards else s.runs[l.r].guards, a))
    || (l.Grant? && Wanted(c, s, l.f) >= a)
  }

  /** A worker parked for a permit: it takes a free one, or leaves, or somebody with a permit can move. */
  lemma ParkedCanStep(c: Config, s: Sys, f: Flow) returns (l: Label)
    requires Inv(c, s) && f < |s.flows| && s.flows[f].worker.Parked? && (c.cap > 0 || s.shutdown)
    ensures Internal(l) && Enabled(c, s, l) && ((FlowLabel(l) && l.f == f) || ByPermitHolder(c, s, l))
  {
    if s.shutdown {
      l := Trip(f);
    } else if s.free > 0 {
      l := TakePermit(f);
    } else if RunTotal(Permits, s.runs) > 0 {
      var r := TotalWitness(Permits, s.runs);
      l := RunCanStep(c, s, r);
    } else {
      var g := FlowWitness(Permits, s.flows);
      l := FlowCanStep(c, s, g);
    }
  }

  /** Follows a wait chain: sorted acquisition makes every next wanted agent larger, so the chain ends at something that
      moves: the flow itself, or a task that what it waits for depends on. */
  lemma {:induction false} LockingCanStep(c: Config, s: Sys, f: Flow, top: nat) returns (l: Label)
    requires ValidConfig(c) && Inv(c, s) && f < |s.flows| && s.flows[f].worker.Locking? && (c.cap > 0 || s.shutdown)
    requires forall g, i :: 0 <= g < |c.members| && 0 <= i < |c.members[g]| ==> c.members[g][i] < top
    ensures Internal(l) && Enabled(c, s, l)
    ensures (FlowLabel(l) && l.f == f) || (Wants(c, s, f) && Unblocks(c, s, Wanted(c, s, f), l))
    decreases if Wants(c, s, f) then top - Wanted(c, s, f) else 0
  {
    var fl := s.flows[f];
    assert FlowPassed(c.members[f], fl) && Passed(c, s);
    hide Locks, Counters, Local, Conserved, Recorded, Homes, Waits;
    if !Wants(c, s, f) {
      l := Locked(f);
    } else {
      var a := Wanted(c, s, f);
      if a !in c.pool {
        l := Skip(f);
      } else if c.pool[a].Shared? {
        l := ReadLock(f);
      } else if !fl.worker.waiting {
        l := Request(f);
      } else if a !in s.locked {
        FirstInLineCanStep(c, s, f, a);
        l := Grant(Waiters(s, a)[0]);
      } else {
        l := HolderCanStep(c, s, f, a, top);
      }
    }
  }

  /** A free agent that is waited for can be granted to the flow first in its line. */
  lemma FirstInLineCanStep(c: Config, s: Sys, f: Flow, a: Agent)
    requires Inv(c, s) && f < |s.flows| && Wants(c, s, f) && Wanted(c, s, f) == a && IsExclusive(c, a)
    requires s.flows[f].worker.waiting && a !in s.locked
    ensures f in Waiters(s, a) && Enabled(c, s, Grant(Waiters(s, a)[0])) && Wanted(c, s, Waiters(s, a)[0]) == a
  {
    assert Waits(c, s) && Passed(c, s);
    hide Inv, Locks, Counters, Local, Conserved, Recorded, Homes;
    assert f in Waiters(s, a);
    var h := Waiters(s, a)[0];
    assert h in Waiters(s, a);
    assert WaitsFor(c, s, h, a);
  }

  /** A taken agent that is waited for can be moved towards: its holder, a task further along the order that the holder
      waits for, or a task with the permit one of them waits for has a step. */
  lemma {:induction false} HolderCanStep(c: Config, s: Sys, f: Flow, a: Agent, top: nat) returns (l: Label)
    requires ValidConfig(c) && Inv(c, s) && f < |s.flows| && (c.cap > 0 || s.shutdown)
    requires Wants(c, s, f) && Wanted(c, s, f) == a && a in s.locked
    requires forall g, i :: 0 <= g < |c.members| && 0 <= i < |c.members[g]| ==> c.members[g][i] < top
    ensures Internal(l) && Enabled(c, s, l) && Unblocks(c, s, a, l)
    decreases top - a, 0
  {
    assert IsExclusive(c, a) && HolderExists(s, s.locked[a]);
    match s.locked[a]
    case ByRun(r) =>
      assert a in s.runs[r].guards;
      l := RunCanStep(c, s, r);
    case ByWorker(g) =>
      assert a in s.flows[g].guards;
      var w := s.flows[g].worker;
      assert FlowLocal(s.flows[g]) && FlowPassed(c.members[g], s.flows[g]);
      if w.Parked? {
        l := ParkedCanStep(c, s, g);
      } else if w.Locking? {
        if Wants(c, s, g) {
          var i :| 0 <= i < w.at && c.members[g][i] == a;
          assert a < Wanted(c, s, g);
        }
        l := LockingCanStep(c, s, g, top);
        if !(FlowLabel(l) && l.f == g) { FurtherUnblocks(c, s, a, Wanted(c, s, g), l); }
      } else {
        l := FlowCanStep(c, s, g);
      }
  }

  lemma FurtherUnblocks(c: Config, s: Sys, a: Agent, b: Agent, l: Label)
    requires Enabled(c, s, l) && Unblocks(c, s, b, l) && a <= b
    ensures Unblocks(c, s, a, l)
  {
  }

  lemma {:induction false} MaxOf(q: seq<Agent>) returns (top: nat)
    ensures forall i :: 0 <= i < |q| ==> q[i] < top
  {
    if q == [] { top := 0; } else {
      top := MaxOf(q[..|q| - 1]);
      if top <= q[|q| - 1] { top := q[|q| - 1] + 1; }
    }
  }

  lemma {:induction false} MembersTop(ms: seq<seq<Agent>>) returns (top: nat)
    ensures forall g, i :: 0 <= g < |ms| && 0 <= i < |ms[g]| ==> ms[g][i] < top
  {
    if ms == [] { top := 0; } else {
      top := MembersTop(ms[..|ms| - 1]);
      var m := MaxOf(ms[|ms| - 1]);
      assert forall g :: 0 <= g < |ms| - 1 ==> ms[g] == ms[..|ms| - 1][g];
      if top < m { top := m; }
    }
  }

  /** While any accepted trigger is unsettled some internal step is enabled, unless no permit exists at all. */
  lemma Progress(c: Config, s: Sys)
    requires ValidConfig(c) && Inv(c, s) && Pending(s) && (c.cap > 0 || s.shutdown)
    ensures CanStep(c, s)
  {
    hide Inv, Pending;
    var l := PendingStep(c, s);
    assert Internal(l) && Enabled(c, s, l);
  }

  lemma PendingStep(c: Config, s: Sys) returns (l: Label)
    requires ValidConfig(c) && Inv(c, s) && Pending(s) && (c.cap > 0 || s.shutdown)
    ensures Internal(l) && Enabled(c, s, l)
  {
    if f :| 0 <= f < |s.flows| && !s.flows[f].accept.NoAccept? {
      l := FlowCanStep(c, s, f);
    } else {
      var id: Id :| id < |s.hub| && id !in s.settled;
      HeldIsUnsettled(s, id);
      if RunTotal(Holds(id), s.runs) > 0 {
        var r := TotalWitness(Holds(id), s.runs);
        l := RunCanStep(c, s, r);
      } else {
        var f := FlowWitness(Holds(id), s.flows);
        var w := s.flows[f].worker;
        assert FlowLocal(s.flows[f]);
        if w.Locking? { var top := MembersTop(c.members); l := LockingCanStep(c, s, f, top); }
        else if w.Parked? { l := ParkedCanStep(c, s, f); }
        else if w.Ready? { l := Dequeue(f); }
        else { assert !w.Exited?; l := FlowCanStep(c, s, f); }
      }
    }
  }

  // ---- every internal step uses up effort ----

  function EffortLeft(c: Config, s: Sys): nat {
    FlowTotal(Effort(c), s.flows) + RunTotal(Effort(c), s.runs) + (if s.shutdown then 0 else 1)
  }

  lemma FlowEffortStep(c: Config, s: Sys, l: Label)
    requires FlowLabel(l) && l.f < |s.flows| == |c.members| && FlowEnabled(c, s, l)
    requires FlowLocal(s.flows[l.f]) && FlowPassed(c.members[l.f], s.flows[l.f])
    ensures var n, fl, gl := |c.members[l.f]|, s.flows[l.f], FlowAfter(c, s, l);
      if l.Admit? then FlowEffort(n, gl) == FlowEffort(n, fl) + JobEffort(n) + 3
      else FlowEffort(n, gl) + (if l.Spawn? then 5 + |fl.guards| else 0) < FlowEffort(n, fl)
  {
    var n, fl, gl := |c.members[l.f]|, s.flows[l.f], FlowAfter(c, s, l);
    if QueueLabel(l) {
      QueueEffortStep(c, s, l);
    } else {
      WorkerEffortStep(c, s, l);
    }
  }

  lemma Times(a: nat, j: nat)
    ensures (a + 1) * j == a * j + j && (j >= 2 ==> a * j >= a * 2)
  {
  }

  lemma QueueEffortStep(c: Config, s: Sys, l: Label)
    requires FlowLabel(l) && l.f < |s.flows| == |c.members| && FlowEnabled(c, s, l) && QueueLabel(l)
    ensures var n, fl, gl := |c.members[l.f]|, s.flows[l.f], FlowAfter(c, s, l);
      if l.Admit? then FlowEffort(n, gl) == FlowEffort(n, fl) + JobEffort(n) + 3 else FlowEffort(n, gl) < FlowEffort(n, fl)
  {
    var n, fl := |c.members[l.f]|, s.flows[l.f];
    Times(|fl.queue|, JobEffort(n));
    if l.Dequeue? { Times(|fl.queue| - 1, JobEffort(n)); }
  }

  lemma WorkerEffortStep(c: Config, s: Sys, l: Label)
    requires FlowLabel(l) && l.f < |s.flows| == |c.members| && FlowEnabled(c, s, l) && !QueueLabel(l)
    requires FlowLocal(s.flows[l.f]) && FlowPassed(c.members[l.f], s.flows[l.f])
    ensures var n, fl, gl := |c.members[l.f]|, s.flows[l.f], FlowAfter(c, s, l);
      && gl.queue == fl.queue && gl.accept == fl.accept
      && |gl.guards| + WorkerEffort(n, gl.worker) + (if l.Spawn? then 5 + |fl.guards| else 0) < |fl.guards| + WorkerEffort(n, fl.worker)
  {
    WorkerKeepsQueue(c, s, l);
    if l.Grant? || l.ReadLock? { GuardTaken(s.flows[l.f].guards, Wanted(c, s, l.f)); }
  }

  lemma GuardTaken(guards: set<Agent>, a: Agent)
    ensures |guards + {a}| <= |guards| + 1
  {
    if a in guards { assert guards + {a} == guards; }
  }

  /** Every internal step lowers the effort left; an arrival raises it by the cost of one job of that flow. */
  lemma EffortStep(c: Config, s: Sys, l: Label)
    requires Inv(c, s) && Enabled(c, s, l)
    ensures if l.Admit? then EffortLeft(c, Next(c, s, l)) == EffortLeft(c, s) + JobEffort(|c.members[l.f]|) + 3
            else EffortLeft(c, Next(c, s, l)) < EffortLeft(c, s)
  {
    if l.Shutdown? {
    } else if FlowLabel(l) {
      FlowEffortLeft(c, s, l);
    } else {
      assert RunLocal(s.runs[l.r]);
      RunEffortStep(c, s, l);
    }
  }

  lemma FlowEffortLeft(c: Config, s: Sys, l: Label)
    requires Local(s) && Passed(c, s) && FlowLabel(l) && l.f < |s.flows| == |c.members| && FlowEnabled(c, s, l)
    ensures if l.Admit? then EffortLeft(c, FlowNext(c, s, l)) == EffortLeft(c, s) + JobEffort(|c.members[l.f]|) + 3
            else EffortLeft(c, FlowNext(c, s, l)) < EffortLeft(c, s)
  {
    var gl := FlowAfter(c, s, l);
    FlowEffortStep(c, s, l);
    PutEffort(c, s, FlowNext(c, s, l), l.f, gl, l.Spawn?,
              RunTask(l.f, if l.Spawn? then s.flows[l.f].worker.job else 0, Live, 0, true, s.flows[l.f].guards));
  }

  lemma PutEffort(c: Config, s: Sys, t: Sys, f: Flow, gl: FlowState, spawn: bool, q: RunTask)
    requires f < |s.flows| == |c.members| && t.flows == s.flows[f := gl] && t.shutdown == s.shutdown
    requires t.runs == if spawn then s.runs + [q] else s.runs
    ensures EffortLeft(c, t) == EffortLeft(c, s) - FlowEffort(|c.members[f]|, s.flows[f]) + FlowEffort(|c.members[f]|, gl)
                                + (if spawn then RunWeight(Effort(c), q) else 0)
  {
    FlowTotalUpdate(Effort(c), s.flows, f, gl);
    RunTotalAppend(Effort(c), s.runs, q);
  }

  lemma RunEffortStep(c: Config, s: Sys, l: Label)
    requires !FlowLabel(l) && !l.Shutdown? && l.r < |s.runs| && RunEnabled(s, l) && RunLocal(s.runs[l.r])
    requires s.runs[l.r].flow < |s.flows| == |c.members|
    ensures EffortLeft(c, RunNext(s, l)) == EffortLeft(c, s) - 1
  {
    var q := s.runs[l.r];
    var t := RunNext(s, l);
    RunWeightStep(c, s, l);
    RunTotalUpdate(Effort(c), s.runs, l.r, RunAfter(q, l));
    FlowTotalUpdate(Effort(c), s.flows, q.flow, t.flows[q.flow]);
    assert t.flows == s.flows[q.flow := t.flows[q.flow]];
  }

  lemma RunWeightStep(c: Config, s: Sys, l: Label)
    requires !FlowLabel(l) && !l.Shutdown? && l.r < |s.runs| && RunEnabled(s, l) && RunLocal(s.runs[l.r])
    ensures RunWeight(Effort(c), RunAfter(s.runs[l.r], l)) == RunWeight(Effort(c), s.runs[l.r]) - 1
    ensures s.runs[l.r].flow < |s.flows| ==>
      FlowWeight(Effort(c), s.runs[l.r].flow, RunNext(s, l).flows[s.runs[l.r].flow]) == FlowWeight(Effort(c), s.runs[l.r].flow, s.flows[s.runs[l.r].flow])
  {
  }

  function Arrivals(c: Config, ls: seq<Label>): nat {
    if ls == [] then 0
    else
      var l := ls[|ls| - 1];
      Arrivals(c, ls[..|ls| - 1]) + (if l.Admit? && l.f < |c.members| then JobEffort(|c.members[l.f]|) + 3 else 0)
  }

  function Steps(ls: seq<Label>): nat {
    if ls == [] then 0 else Steps(ls[..|ls| - 1]) + (if ls[|ls| - 1].Admit? then 0 else 1)
  }

  /** In any schedule the steps other than arrivals are bounded by a fixed cost per accepted trigger:
      15 plus three per member of its flow, on top of one shutdown and three steps per worker. */
  lemma {:induction false} DrainBound(c: Config, ls: seq<Label>)
    requires Exec(c, ls).At?
    ensures Steps(ls) + EffortLeft(c, Exec(c, ls).s) <= 1 + 3 * |c.members| + Arrivals(c, ls)
  {
    if ls == [] {
      InitEffort(c, |c.members|);
    } else {
      var init, l := ls[..|ls| - 1], ls[|ls| - 1];
      DrainBound(c, init);
      ExecInv(c, init);
      EffortStep(c, Exec(c, init).s, l);
    }
  }

  lemma {:induction false} InitEffort(c: Config, n: nat)
    requires n <= |c.members|
    ensures FlowTotal(Effort(c), seq(n, i => Idle())) == 3 * n
  {
    if n > 0 {
      InitEffort(c, n - 1);
      assert seq(n, i => Idle())[..n - 1] == seq(n - 1, i => Idle());
    }
  }

  // ---- the permit cap is what progress needs ----

  /** With no permits and no interrupt nothing is ever spawned, abandoned or settled. */
  predicate Idling(s: Sys) {
    !s.shutdown && s.runs == [] && s.settled == [] &&
    forall f :: 0 <= f < |s.flows| ==> var w := s.flows[f].worker; w.Ready? || w.InHand? || w.Locking? || w.Parked?
  }

  lemma IdlingStep(c: Config, s: Sys, l: Label)
    requires c.cap == 0 && Inv(c, s) && Idling(s) && Enabled(c, s, l) && !l.Shutdown?
    ensures Idling(Next(c, s, l)) && (Pending(s) ==> Pending(Next(c, s, l)))
  {
    var t := Next(c, s, l);
    IdlingFlowStep(c, s, l);
    HubLength(c, s, l);
    assert t.flows == s.flows[l.f := FlowAfter(c, s, l)] && t.settled == [];
    if |t.hub| > 0 {
      assert 0 !in t.settled;
    } else if Pending(s) {
      var f :| 0 <= f < |s.flows| && !s.flows[f].accept.NoAccept?;
      StillAccepting(c, s, l, f);
      assert !t.flows[f].accept.NoAccept?;
    }
  }

  /** An accept leaves a record behind, or is still under way. */
  lemma StillAccepting(c: Config, s: Sys, l: Label, f: Flow)
    requires Homes(s) && FlowLabel(l) && l.f < |s.flows| == |c.members| && FlowEnabled(c, s, l)
    requires f < |s.flows| && !s.flows[f].accept.NoAccept? && |s.hub| == 0 && !l.Register?
    ensures !FlowNext(c, s, l).flows[f].accept.NoAccept?
  {
    assert FlowHome(s.home, f, s.flows[f]);
    assert s.flows[f].accept.Registered? ==> FlowHolds(s.flows[f], s.flows[f].accept.id) > 0;
  }

  lemma IdlingFlowStep(c: Config, s: Sys, l: Label)
    requires c.cap == 0 && Counters(c, s) && Idling(s) && FlowLabel(l) && l.f < |s.flows| == |c.members| && FlowEnabled(c, s, l)
    ensures !l.Spawn? && SettledBy(s, l) == []
    ensures var w := FlowAfter(c, s, l).worker; w.Ready? || w.InHand? || w.Locking? || w.Parked?
  {
  }

  /** Without permits every pending, uninterrupted state runs into one where no internal step is left. */
  lemma {:induction false} RunsIntoWedge(c: Config, s: Sys) returns (t: Sys)
    requires c.cap == 0 && Reachable(c, s) && Idling(s) && Pending(s)
    ensures Reachable(c, t) && Pending(t) && !t.shutdown && !CanStep(c, t)
    decreases EffortLeft(c, s)
  {
    if l :| Internal(l) && Enabled(c, s, l) {
      ReachableInv(c, s);
      IdlingStep(c, s, l);
      ReachableNext(c, s, l);
      EffortStep(c, s, l);
      t := RunsIntoWedge(c, Next(c, s, l));
    } else {
      t := s;
    }
  }

  /** The scheduler always makes progress before an interrupt exactly when max_concurrent_runs is positive.
      This is what the freeze's lower bound on max_concurrent_runs is for: at 0 the first trigger of any flow wedges it. */
  lemma ProgressIffPermits(c: Config)
    requires ValidConfig(c) && |c.members| > 0
    ensures (forall s :: Reachable(c, s) && Pending(s) && !s.shutdown ==> CanStep(c, s)) <==> c.cap > 0
  {
    if c.cap > 0 {
      forall s | Reachable(c, s) && Pending(s) ensures CanStep(c, s) {
        ReachableInv(c, s);
        Progress(c, s);
      }
    } else {
      var s := Init(c);
      assert Exec(c, []) == At(s);
      var t := Next(c, s, Admit(0));
      ReachableNext(c, s, Admit(0));
      assert !t.flows[0].accept.NoAccept?;
      var w := RunsIntoWedge(c, t);
    }
  }

  /** Accepted triggers always drain: from any state some finite schedule of internal steps settles everything. */
  lemma {:induction false} AlwaysDrains(c: Config, s: Sys) returns (t: Sys)
    requires ValidConfig(c) && Reachable(c, s) && (c.cap > 0 || s.shutdown)
    ensures Reachable(c, t) && !Pending(t) && t.shutdown == s.shutdown && |t.hub| >= |s.hub|
    ensures forall id: Id :: id < |s.hub| ==> multiset(t.settled)[id] == 1
    decreases EffortLeft(c, s)
  {
    ReachableInv(c, s);
    if Pending(s) {
      Progress(c, s);
      var l :| Internal(l) && Enabled(c, s, l);
      EffortStep(c, s, l);
      ReachableNext(c, s, l);
      if FlowLabel(l) { HubLength(c, s, l); }
      t := AlwaysDrains(c, Next(c, s, l));
    } else {
      t := s;
      forall id: Id | id < |s.hub| ensures multiset(t.settled)[id] == 1 { HeldIsUnsettled(s, id); }
    }
  }

  // ---- what a panic does to the bound on outstanding ----

  lemma StepTo(c: Config, s: Sys, l: Label) returns (t: Sys)
    requires Reachable(c, s) && Enabled(c, s, l)
    ensures t == Next(c, s, l) && Reachable(c, t)
  {
    t := Next(c, s, l);
    ReachableNext(c, s, l);
  }

  /** Nobody is in line for anything, no interrupt, and whatever is locked is in flow f's hands. */
  ghost predicate Alone(c: Config, s: Sys, f: Flow) {
    && Reachable(c, s) && f < |s.flows| == |c.members| && !s.shutdown
    && (forall a :: a in s.waiting ==> s.waiting[a] == [])
  }

  predicate Stands(fl: FlowState, queued: nat, w: Worker, owed: nat) {
    fl.open && fl.accept.NoAccept? && |fl.queue| == queued && fl.worker == w && fl.outstanding == owed
  }

  lemma AcceptOne(c: Config, s: Sys, f: Flow, k: nat) returns (t: Sys)
    requires Alone(c, s, f) && Stands(s.flows[f], 0, Ready, k)
    ensures Alone(c, t, f) && Stands(t.flows[f], 1, Ready, k + 1) && t.flows[f].guards == s.flows[f].guards
    ensures t.runs == s.runs && t.locked == s.locked && t.free == s.free
  {
    hide Reachable;
    t := StepTo(c, s, Admit(f));
    t := StepTo(c, t, Count(f));
    t := StepTo(c, t, Register(f));
    t := StepTo(c, t, Send(f));
  }

  lemma TakeOne(c: Config, s: Sys, f: Flow, k: nat) returns (t: Sys)
    requires Alone(c, s, f) && Stands(s.flows[f], 1, Ready, k)
    ensures Alone(c, t, f) && Stands(t.flows[f], 0, Locking(s.flows[f].queue[0], 0, false), k) && t.flows[f].guards == s.flows[f].guards
    ensures t.runs == s.runs && t.locked == s.locked && t.free == s.free
  {
    hide Reachable;
    t := StepTo(c, s, Dequeue(f));
    t := StepTo(c, t, Check(f));
  }

  /** Only agents before `at` are held, and everything locked is. */
  predicate HeldBelow(c: Config, s: Sys, f: Flow, at: nat)
    requires f < |s.flows| == |c.members|
  {
    && s.locked.Keys <= s.flows[f].guards
    && forall i :: at <= i < |c.members[f]| ==> c.members[f][i] !in s.flows[f].guards
  }

  lemma LockNext(c: Config, s: Sys, f: Flow, job: Id, at: nat, k: nat) returns (t: Sys)
    requires ValidConfig(c) && Alone(c, s, f) && at < |c.members[f]| && Stands(s.flows[f], 0, Locking(job, at, false), k)
    requires HeldBelow(c, s, f, at)
    ensures Alone(c, t, f) && Stands(t.flows[f], 0, Locking(job, at + 1, false), k) && HeldBelow(c, t, f, at + 1)
    ensures t.runs == s.runs && t.free == s.free
  {
    hide Reachable;
    var a := c.members[f][at];
    assert forall i :: at < i < |c.members[f]| ==> c.members[f][i] != a;
    if a !in c.pool {
      t := StepTo(c, s, Skip(f));
    } else if c.pool[a].Shared? {
      t := StepTo(c, s, ReadLock(f));
    } else {
      t := LockExclusive(c, s, f, job, at, k);
    }
  }

  lemma LockExclusive(c: Config, s: Sys, f: Flow, job: Id, at: nat, k: nat) returns (t: Sys)
    requires ValidConfig(c) && Alone(c, s, f) && at < |c.members[f]| && Stands(s.flows[f], 0, Locking(job, at, false), k)
    requires HeldBelow(c, s, f, at) && IsExclusive(c, c.members[f][at])
    ensures Alone(c, t, f) && Stands(t.flows[f], 0, Locking(job, at + 1, false), k) && HeldBelow(c, t, f, at + 1)
    ensures t.runs == s.runs && t.free == s.free
  {
    hide Reachable;
    assert forall i :: at < i < |c.members[f]| ==> c.members[f][i] != c.members[f][at];
    t := AskNext(c, s, f, job, at, k);
    t := StepTo(c, t, Grant(f));
  }

  lemma AskNext(c: Config, s: Sys, f: Flow, job: Id, at: nat, k: nat) returns (t: Sys)
    requires Alone(c, s, f) && at < |c.members[f]| && Stands(s.flows[f], 0, Locking(job, at, false), k)
    requires IsExclusive(c, c.members[f][at])
    ensures Reachable(c, t) && |t.flows| == |c.members| && !t.shutdown && t.runs == s.runs && t.free == s.free && t.locked == s.locked
    ensures Stands(t.flows[f], 0, Locking(job, at, true), k) && t.flows[f].guards == s.flows[f].guards
    ensures Waiters(t, c.members[f][at]) == [f] && forall a :: a in t.waiting && a != c.members[f][at] ==> t.waiting[a] == []
  {
    hide Reachable;
    t := StepTo(c, s, Request(f));
  }

  lemma {:induction false} LockAll(c: Config, s: Sys, f: Flow, job: Id, at: nat, k: nat) returns (t: Sys)
    requires ValidConfig(c) && Alone(c, s, f) && at <= |c.members[f]| && Stands(s.flows[f], 0, Locking(job, at, false), k)
    requires HeldBelow(c, s, f, at)
    ensures Alone(c, t, f) && Stands(t.flows[f], 0, Locking(job, |c.members[f]|, false), k) && HeldBelow(c, t, f, |c.members[f]|)
    ensures t.runs == s.runs && t.free == s.free
    decreases |c.members[f]| - at
  {
    if at == |c.members[f]| {
      t := s;
    } else {
      hide HeldBelow, Alone, Stands;
      t := LockNext(c, s, f, job, at, k);
      t := LockAll(c, t, f, job, at + 1, k);
    }
  }

  lemma PermitOne(c: Config, s: Sys, f: Flow, job: Id, k: nat) returns (t: Sys)
    requires Alone(c, s, f) && Stands(s.flows[f], 0, Locking(job, |c.members[f]|, false), k) && s.free > 0
    ensures Alone(c, t, f) && Stands(t.flows[f], 0, Begun(job), k) && t.free == s.free - 1 && t.runs == s.runs
    ensures t.locked == s.locked && t.flows[f].guards == s.flows[f].guards
  {
    hide Reachable, SetStatus;
    t := StepTo(c, s, Locked(f));
    t := StepTo(c, t, TakePermit(f));
    t := StepTo(c, t, Begin(f));
  }

  lemma SpawnOne(c: Config, s: Sys, f: Flow, job: Id, k: nat) returns (t: Sys)
    requires Alone(c, s, f) && Stands(s.flows[f], 0, Begun(job), k) && s.locked.Keys <= s.flows[f].guards
    ensures Alone(c, t, f) && Stands(t.flows[f], 0, Ready, k) && t.flows[f].guards == {} && t.free == s.free
    ensures t.runs == s.runs + [RunTask(f, job, Live, 0, true, s.flows[f].guards)] && t.locked.Keys == s.locked.Keys
  {
    hide Reachable;
    t := StepTo(c, s, Commit(f));
    t := StepTo(c, t, Spawn(f));
  }

  /** A panic: the permit goes back first. */
  lemma PanicOne(c: Config, s: Sys, f: Flow, rest: seq<RunTask>, job: Id, guards: set<Agent>, k: nat) returns (t: Sys)
    requires Alone(c, s, f) && Stands(s.flows[f], 0, Ready, k) && s.runs == rest + [RunTask(f, job, Live, 0, true, guards)]
    ensures Alone(c, t, f) && Stands(t.flows[f], 0, Ready, k) && t.flows[f].guards == s.flows[f].guards && t.free == s.free + 1
    ensures t.runs == rest + [RunTask(f, job, Dropped, 0, false, guards)] && t.locked == s.locked
  {
    hide Reachable;
    t := StepTo(c, s, End(|rest|, true));
    t := StepTo(c, t, ReleasePermit(|rest|));
  }

  /** Then its locks, one by one. */
  lemma {:induction false} UnlockAll(c: Config, s: Sys, f: Flow, rest: seq<RunTask>, job: Id, guards: set<Agent>, k: nat)
    returns (t: Sys)
    requires Alone(c, s, f) && Stands(s.flows[f], 0, Ready, k) && s.runs == rest + [RunTask(f, job, Dropped, 0, false, guards)]
    requires s.locked.Keys <= guards
    ensures Alone(c, t, f) && Stands(t.flows[f], 0, Ready, k) && t.flows[f].guards == s.flows[f].guards && t.free == s.free
    ensures t.runs == rest + [RunTask(f, job, Dropped, 0, false, {})] && t.locked == map[]
    decreases |guards|
  {
    if guards == {} {
      t := s;
    } else {
      var a :| a in guards;
      t := UnlockOne(c, s, f, rest, job, guards, a, k);
      hide Alone, Stands;
      t := UnlockAll(c, t, f, rest, job, guards - {a}, k);
    }
  }

  lemma UnlockOne(c: Config, s: Sys, f: Flow, rest: seq<RunTask>, job: Id, guards: set<Agent>, a: Agent, k: nat)
    returns (t: Sys)
    requires Alone(c, s, f) && Stands(s.flows[f], 0, Ready, k) && s.runs == rest + [RunTask(f, job, Dropped, 0, false, guards)]
    requires s.locked.Keys <= guards && a in guards
    ensures Alone(c, t, f) && Stands(t.flows[f], 0, Ready, k) && t.flows[f].guards == s.flows[f].guards && t.free == s.free
    ensures t.runs == rest + [RunTask(f, job, Dropped, 0, false, guards - {a})] && t.locked.Keys <= guards - {a}
  {
    hide Reachable;
    t := StepTo(c, s, ReleaseGuard(|rest|, a));
  }

  /** Flow f is between jobs and every permit and lock is free, yet k triggers count as outstanding: those of the k run
      tasks that are unwinding. */
  ghost predicate Piled(c: Config, s: Sys, f: Flow, k: nat) {
    && Alone(c, s, f) && Stands(s.flows[f], 0, Ready, k) && s.flows[f].guards == {}
    && s.free == c.cap && s.locked == map[] && Orphans(f, s.runs) == k
  }

  lemma PileOne(c: Config, s: Sys, f: Flow, k: nat) returns (t: Sys)
    requires ValidConfig(c) && c.cap > 0 && Piled(c, s, f, k)
    ensures Piled(c, t, f, k + 1)
  {
    t := AcceptOne(c, s, f, k);
    var job := t.flows[f].queue[0];
    t := TakeOne(c, t, f, k + 1);
    t := LockAll(c, t, f, job, 0, k + 1);
    t := PermitOne(c, t, f, job, k + 1);
    var guards := t.flows[f].guards;
    t := SpawnOne(c, t, f, job, k + 1);
    t := PanicOne(c, t, f, s.runs, job, guards, k + 1);
    t := UnlockAll(c, t, f, s.runs, job, guards, k + 1);
    OneMoreOrphan(f, s.runs, job);
    hide Alone, Stands;
  }

  lemma OneMoreOrphan(f: Flow, runs: seq<RunTask>, job: Id)
    ensures Orphans(f, runs + [RunTask(f, job, Dropped, 0, false, {})]) == Orphans(f, runs) + 1
  {
    var q := RunTask(f, job, Dropped, 0, false, {});
    assert (runs + [q])[..|runs|] == runs;
  }

  lemma {:induction false} PileUp(c: Config, f: Flow, k: nat) returns (s: Sys)
    requires ValidConfig(c) && c.cap > 0 && f < |c.members|
    ensures Piled(c, s, f, k)
  {
    if k == 0 {
      s := Init(c);
      assert Exec(c, []) == At(s);
    } else {
      s := PileUp(c, f, k - 1);
      s := PileOne(c, s, f, k - 1);
    }
  }

  /** In every configuration that can run anything, and for every flow: run tasks that unwind from a panic at once add up
      in `outstanding` one by one, each having given its permit and locks back before its slot, although nothing is
      queued and everything is free. So the bound on `outstanding` is only as good as the one on such tasks. */
  lemma OrphansAddUp(c: Config, f: Flow, k: nat) returns (s: Sys)
    requires ValidConfig(c) && c.cap > 0 && f < |c.members|
    ensures Reachable(c, s) && f < |s.flows| && s.flows[f].outstanding == Orphans(f, s.runs) == k
    ensures s.flows[f].queue == [] && s.flows[f].worker.Ready? && s.free == c.cap && s.locked == map[]
  {
    s := PileUp(c, f, k);
  }
}
